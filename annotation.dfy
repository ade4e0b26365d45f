/**
 * The Annotation model: default permissions, saving an annotation together
 * with its embedded document metadata (create a Document, or merge into the
 * first Document that already owns one of its hrefs), widening a `uri`
 * search to every href of the matching Documents, and wrapping a search in
 * the permission filter when authorization is on.
 *
 * The document index is a sequence of records searched in order; the
 * permission filter built by the authorization module is an input value.
 */
module Annotations {
  import opened JsonData
  import opened Documents

  /**
   * Process-wide configuration: the `AUTHZ_ON` flag, the principal that
   * stands for "the consumer group" in default permissions, and the maximal
   * page size of a raw search.
   */
  datatype Config = Config(authzOn: bool, groupConsumer: string, resultsMaxSize: nat)

  // ---------------------------------------------------------------------
  // Default permissions
  // ---------------------------------------------------------------------

  /** `{'read': [GROUP_CONSUMER]}`. */
  function DefaultPermissions(group: string): Json {
    JObj(map["read" := JArr([JStr(group)])])
  }

  /** The annotation after `_add_default_permissions`. */
  function WithDefaultPermissions(ann: map<string, Json>, group: string): (r: map<string, Json>)
    ensures "permissions" in r
    ensures r.Keys == ann.Keys + {"permissions"}
    ensures forall k :: k in ann ==> r[k] == ann[k]
    ensures "permissions" !in ann ==> r["permissions"] == DefaultPermissions(group)
  {
    if "permissions" in ann then ann else ann["permissions" := DefaultPermissions(group)]
  }

  /** Applying the defaults twice is the same as applying them once. */
  lemma DefaultPermissionsIdempotent(ann: map<string, Json>, group: string)
    ensures WithDefaultPermissions(WithDefaultPermissions(ann, group), group) == WithDefaultPermissions(ann, group)
  {
  }

  // ---------------------------------------------------------------------
  // Saving the embedded document
  // ---------------------------------------------------------------------

  /**
   * `d['link']`'s elements as links, each of which must be an object with an
   * `href` (the comprehension `[link['href'] for link in d['link']]` raises
   * otherwise, on the first offending element).
   */
  function LinkObjects(items: seq<Json>): (r: Result<seq<Link>, PyError>)
    ensures r.Ok? <==> forall i :: 0 <= i < |items| ==> items[i].JObj? && "href" in items[i].fields
    ensures r.Ok? ==> |r.value| == |items| && forall i :: 0 <= i < |items| ==> items[i] == JObj(r.value[i])
  {
    if items == [] then Ok([])
    else if !items[0].JObj? then Err(TypeError)
    else if "href" !in items[0].fields then Err(KeyError("href"))
    else
      match LinkObjects(items[1..])
      case Err(e) =>
        assert exists i :: 1 <= i < |items| && !(items[i].JObj? && "href" in items[i].fields) by {
          var j :| 0 <= j < |items[1..]| && !(items[1..][j].JObj? && "href" in items[1..][j].fields);
          assert items[1..][j] == items[j + 1];
        }
        Err(e)
      case Ok(rest) => Ok([items[0].fields] + rest)
  }

  /** The links of an embedded document, or the error reading them raises. */
  function EmbeddedLinks(d: Json): (r: Result<seq<Link>, PyError>)
    ensures r.Ok? ==> d.JObj? && "link" in d.fields && d.fields["link"].JArr?
                      && LinkObjects(d.fields["link"].items) == r
    ensures d.JObj? && "link" in d.fields && d.fields["link"].JArr? ==> r == LinkObjects(d.fields["link"].items)
    ensures d.JObj? && "link" !in d.fields ==> r == Err(KeyError("link"))
    ensures !d.JObj? || ("link" in d.fields && !d.fields["link"].JArr?) ==> r == Err(TypeError)
  {
    if !d.JObj? then Err(TypeError)
    else if "link" !in d.fields then Err(KeyError("link"))
    else if !d.fields["link"].JArr? then Err(TypeError)
    else LinkObjects(d.fields["link"].items)
  }

  /** A record matches a `terms` search on `link.href` when it owns one of the hrefs. */
  predicate Matches(d: DocRecord, hrefs: seq<Json>) {
    exists h :: h in hrefs && Owns(d, h)
  }

  /** `Document.search(...)[0]`: the position of the first record that matches. */
  function FirstMatch(records: seq<DocRecord>, hrefs: seq<Json>): (r: Option<nat>)
    ensures r.Some? ==> r.value < |records| && Matches(records[r.value], hrefs)
                        && records[r.value].links.Some?
    ensures r.Some? ==> forall j :: 0 <= j < r.value ==> !Matches(records[j], hrefs)
    ensures r.None? ==> forall j :: 0 <= j < |records| ==> !Matches(records[j], hrefs)
  {
    if records == [] then None
    else if Matches(records[0], hrefs) then Some(0)
    else
      match FirstMatch(records[1..], hrefs)
      case None => None
      case Some(k) => Some(k + 1)
  }

  /** `Document.search(...)`: every matching record, in index order. */
  function Matching(records: seq<DocRecord>, hrefs: seq<Json>): (r: seq<DocRecord>)
    ensures forall d :: d in r ==> d in records && Matches(d, hrefs)
    ensures forall j :: 0 <= j < |records| && Matches(records[j], hrefs) ==> records[j] in r
  {
    if records == [] then []
    else
      var init := Matching(records[..|records| - 1], hrefs);
      var d := records[|records| - 1];
      assert forall j :: 0 <= j < |records| - 1 ==> records[..|records| - 1][j] == records[j];
      if Matches(d, hrefs) then init + [d] else init
  }

  /**
   * The search keeps registry order: searching two consecutive stretches of
   * the registry gives the matches of the first, then those of the second;
   * a single record is found exactly when it matches.
   */
  lemma {:induction false} MatchingInRegistryOrder(a: seq<DocRecord>, b: seq<DocRecord>, hrefs: seq<Json>)
    ensures Matching(a + b, hrefs) == Matching(a, hrefs) + Matching(b, hrefs)
    ensures |b| == 1 ==> Matching(b, hrefs) == (if Matches(b[0], hrefs) then [b[0]] else [])
    decreases |b|
  {
    if b == [] {
      assert a + b == a;
    } else {
      var b', last := b[..|b| - 1], b[|b| - 1];
      var found := if Matches(last, hrefs) then [last] else [];
      MatchingInRegistryOrder(a, b', hrefs);
      assert (a + b)[..|a + b| - 1] == a + b';
      assert (a + b)[|a + b| - 1] == last;
      assert Matching(b, hrefs) == Matching(b', hrefs) + found;
      assert Matching(a + b, hrefs) == Matching(a + b', hrefs) + found;
      if |b| == 1 {
        assert b' == [];
      }
    }
  }

  /** The search finds nothing exactly when there is no first match, and otherwise that match comes first. */
  lemma {:induction false} MatchingStartsAtFirstMatch(records: seq<DocRecord>, hrefs: seq<Json>)
    ensures Matching(records, hrefs) == [] <==> FirstMatch(records, hrefs).None?
    ensures FirstMatch(records, hrefs).Some? ==>
              Matching(records, hrefs)[0] == records[FirstMatch(records, hrefs).value]
  {
    if records != [] {
      var init := records[..|records| - 1];
      MatchingStartsAtFirstMatch(init, hrefs);
      assert forall j :: 0 <= j < |init| ==> init[j] == records[j];
      if FirstMatch(init, hrefs).Some? {
        assert FirstMatch(records, hrefs) == FirstMatch(init, hrefs);
      } else if Matches(records[|records| - 1], hrefs) {
        assert FirstMatch(records, hrefs) == Some(|records| - 1);
      }
    }
  }

  /** `merge_links` applied to a stored record that has a `link` list. */
  function MergedRecord(d: DocRecord, incoming: seq<Link>): DocRecord
    requires d.links.Some?
  {
    d.(links := Some(MergedLinks(d.links.value, incoming)))
  }

  /**
   * The document index after `save` has handled the embedded `document`:
   * unchanged without one; a new Document built from it when no record owns
   * any of its hrefs; otherwise the first such record with the links merged.
   */
  function SavedRecords(ann: map<string, Json>, records: seq<DocRecord>): Result<seq<DocRecord>, PyError> {
    if "document" !in ann then Ok(records)
    else
      var d := ann["document"];
      match EmbeddedLinks(d)
      case Err(e) => Err(e)
      case Ok(links) =>
        match FirstMatch(records, Hrefs(links))
        case None => Ok(records + [DocRecord(Some(links), d.fields - {"link"})])
        case Some(k) => Ok(records[k := MergedRecord(records[k], links)])
  }

  /**
   * Saving an annotation with a readable embedded document creates exactly
   * one record when none owns its hrefs and otherwise merges into the first
   * match, creating none. Either way no record loses a link or changes
   * otherwise, and every embedded link with `href` and `type` ends up among
   * the URIs of some record.
   */
  lemma SaveCreatesOrMerges(ann: map<string, Json>, records: seq<DocRecord>)
    requires "document" in ann && EmbeddedLinks(ann["document"]).Ok?
    ensures SavedRecords(ann, records).Ok?
    ensures var links := EmbeddedLinks(ann["document"]).value;
            var saved := SavedRecords(ann, records).value;
            && (FirstMatch(records, Hrefs(links)).None? ==>
                  && saved[..|records|] == records
                  && |saved| == |records| + 1
                  && saved[|records|].links == Some(links)
                  && saved[|records|].meta == ann["document"].fields - {"link"})
            && (FirstMatch(records, Hrefs(links)).Some? ==>
                  var k := FirstMatch(records, Hrefs(links)).value;
                  && |saved| == |records|
                  && (forall j :: 0 <= j < |records| && j != k ==> saved[j] == records[j])
                  && saved[k] == MergedRecord(records[k], links)
                  && saved[k].meta == records[k].meta
                  && records[k].links.value <= saved[k].links.value)
            && (forall i :: 0 <= i < |links| && Mergeable(links[i]) ==>
                  exists j :: 0 <= j < |saved| && links[i]["href"] in DocUris(saved[j]))
  {
    var links := EmbeddedLinks(ann["document"]).value;
    var saved := SavedRecords(ann, records).value;
    match FirstMatch(records, Hrefs(links))
    case None =>
      forall i | 0 <= i < |links| && Mergeable(links[i])
        ensures exists j :: 0 <= j < |saved| && links[i]["href"] in DocUris(saved[j])
      {
        assert DocUris(saved[|records|]) == Hrefs(links);
        assert Hrefs(links)[i] == links[i]["href"];
      }
    case Some(k) =>
      var existing := records[k].links.value;
      MergeAppendsOnlyEligible(existing, links);
      MergeCovers(existing, links);
      assert DocUris(saved[k]) == Hrefs(MergedLinks(existing, links));
  }

  /**
   * The index stores Documents by value, so every Document `save` touches
   * is a fresh object loaded from (or written to) it.
   */
  class DocumentIndex {
    var records: seq<DocRecord>

    constructor (rs: seq<DocRecord>)
      ensures records == rs
    {
      records := rs;
    }
  }

  class Annotation {
    var fields: map<string, Json>

    constructor (fs: map<string, Json>)
      ensures fields == fs
    {
      fields := fs;
    }

    /** `_add_default_permissions(self)`. */
    method AddDefaultPermissions(group: string)
      modifies this`fields
      ensures fields == WithDefaultPermissions(old(fields), group)
    {
      if "permissions" !in fields {
        fields := fields["permissions" := DefaultPermissions(group)];
      }
    }

    /**
     * `save()`: default permissions first, then the embedded document, then
     * the annotation itself is handed to the index (`persisted`). An error
     * reading the embedded document escapes before the annotation is saved.
     */
    method Save(index: DocumentIndex, group: string) returns (persisted: Result<map<string, Json>, PyError>)
      modifies this`fields, index`records
      ensures fields == WithDefaultPermissions(old(fields), group)
      ensures SavedRecords(fields, old(index.records)).Ok? ==>
                index.records == SavedRecords(fields, old(index.records)).value && persisted == Ok(fields)
      ensures SavedRecords(fields, old(index.records)).Err? ==>
                index.records == old(index.records) && persisted == Err(SavedRecords(fields, old(index.records)).error)
    {
      AddDefaultPermissions(group);
      if "document" in fields {
        var d := fields["document"];
        var links := EmbeddedLinks(d);
        if links.Err? {
          return Err(links.error);
        }
        var uri := Hrefs(links.value);
        var k := FirstMatch(index.records, uri);
        if k.None? {
          var doc := new Document(DocRecord(Some(links.value), d.fields - {"link"}));
          index.records := index.records + [doc.Record()];
        } else {
          var doc := new Document(index.records[k.value]);
          var ok := doc.MergeLinks(links.value);
          index.records := index.records[k.value := doc.Record()];
        }
      }
      persisted := Ok(fields);
    }
  }

  // ---------------------------------------------------------------------
  // The structured query and its permission wrapper
  // ---------------------------------------------------------------------

  /**
   * One clause of the base query's `and` filter: an optional `term` object,
   * an optional `terms` object, and whatever else the clause holds.
   */
  datatype Clause = Clause(term: Option<map<string, Json>>, terms: Option<map<string, Json>>, rest: map<string, Json>)

  function ClauseJson(c: Clause): Json {
    JObj(c.rest
         + (if c.term.Some? then map["term" := JObj(c.term.value)] else map[])
         + (if c.terms.Some? then map["terms" := JObj(c.terms.value)] else map[]))
  }

  /**
   * The query the base model builds:
   * `{'query': {'filtered': {'query': matchQuery, 'filter': {'and': clauses}}}}`
   * plus its other top-level entries (`from`, `size`, `sort`, ...).
   */
  datatype BaseQuery = BaseQuery(matchQuery: Json, clauses: seq<Clause>, top: map<string, Json>)

  function QueryJson(q: BaseQuery): (r: map<string, Json>)
    ensures "query" in r
    ensures forall k :: k in q.top && k != "query" ==> k in r && r[k] == q.top[k]
    ensures forall k :: k in r && k != "query" ==> k in q.top
    ensures r["query"].JObj? && r["query"].fields.Keys == {"filtered"} && r["query"].fields["filtered"].JObj?
    ensures var f := r["query"].fields["filtered"].fields;
            && f.Keys == {"query", "filter"} && f["query"] == q.matchQuery
            && f["filter"].JObj? && f["filter"].fields.Keys == {"and"} && f["filter"].fields["and"].JArr?
            && |f["filter"].fields["and"].items| == |q.clauses|
            && forall i :: 0 <= i < |q.clauses| ==> f["filter"].fields["and"].items[i] == ClauseJson(q.clauses[i])
  {
    var and := JArr(seq(|q.clauses|, i requires 0 <= i < |q.clauses| => ClauseJson(q.clauses[i])));
    q.top["query" := JObj(map["filtered" := JObj(map["query" := q.matchQuery, "filter" := JObj(map["and" := and])])])]
  }

  /** `q['query'] = {'filtered': {'query': q['query'], 'filter': f}}`. */
  function WrapQuery(q: map<string, Json>, f: Json): map<string, Json>
    requires "query" in q
  {
    q["query" := JObj(map["filtered" := JObj(map["query" := q["query"], "filter" := f])])]
  }

  /** The inverse of `WrapQuery`: the query inside a permission wrapper, and the filter. */
  function UnwrapQuery(q: map<string, Json>): Option<(map<string, Json>, Json)> {
    if "query" in q && q["query"].JObj? && q["query"].fields.Keys == {"filtered"}
       && q["query"].fields["filtered"].JObj?
       && q["query"].fields["filtered"].fields.Keys == {"query", "filter"}
    then
      var inner := q["query"].fields["filtered"].fields;
      Some((q["query" := inner["query"]], inner["filter"]))
    else None
  }

  /** Wrapping keeps the old query intact: unwrapping gives it back with the filter. */
  lemma UnwrapWrap(q: map<string, Json>, f: Json)
    requires "query" in q
    ensures UnwrapQuery(WrapQuery(q, f)) == Some((q, f))
  {
    var w := WrapQuery(q, f);
    assert w["query"].fields.Keys == {"filtered"};
    assert w["query"].fields["filtered"].fields.Keys == {"query", "filter"};
    assert w["query" := q["query"]] == q;
  }

  // ---------------------------------------------------------------------
  // URI expansion
  // ---------------------------------------------------------------------

  /** The `uri` keyword: a single string, or a list. */
  datatype UriArg = SingleUri(uri: string) | UriList(uris: seq<Json>)

  /** `if isinstance(uri, basestring): uri = [uri]`. */
  function UriSeq(u: UriArg): seq<Json> {
    match u
    case SingleUri(s) => [JStr(s)]
    case UriList(us) => us
  }

  /** The hrefs of the given documents, document after document. */
  function AllHrefs(docs: seq<DocRecord>): (r: seq<Json>)
    ensures forall j, h :: 0 <= j < |docs| && h in DocUris(docs[j]) ==> h in r
    ensures forall h :: h in r ==> exists j :: 0 <= j < |docs| && h in DocUris(docs[j])
  {
    if docs == [] then []
    else
      var init := docs[..|docs| - 1];
      assert forall j :: 0 <= j < |init| ==> init[j] == docs[j];
      AllHrefs(init) + DocUris(docs[|docs| - 1])
  }

  /** `acc` with every element of `hs` that it lacks appended, in order. */
  function AddNew(acc: seq<Json>, hs: seq<Json>): (r: seq<Json>)
    ensures |acc| <= |r| && r[..|acc|] == acc
    ensures forall h :: h in hs ==> h in r
    ensures forall i :: |acc| <= i < |r| ==> r[i] in hs && r[i] !in r[..i]
  {
    if hs == [] then acc
    else
      var prev := AddNew(acc, hs[..|hs| - 1]);
      var h := hs[|hs| - 1];
      assert forall x :: x in hs[..|hs| - 1] ==> x in hs;
      if h in prev then prev else prev + [h]
  }

  /** The clause at hand carries `uri` in its `term` part. */
  predicate TermHasUri(c: Clause) {
    c.term.Some? && "uri" in c.term.value
  }

  /** The clause at hand carries `uri` in its `terms` part. */
  predicate TermsHasUri(c: Clause) {
    c.terms.Some? && "uri" in c.terms.value
  }

  predicate MentionsUri(c: Clause) {
    TermHasUri(c) || TermsHasUri(c)
  }

  /**
   * A `uri` clause rewritten to `terms: {uri: uris}`: from a `term` clause
   * the `terms` part is replaced whole and `uri` leaves the `term` part,
   * which goes when it becomes empty; a `terms` clause gets the new list.
   */
  function RewriteClause(c: Clause, uris: seq<Json>): (r: Clause)
    requires MentionsUri(c)
    ensures r.rest == c.rest
    ensures TermsHasUri(r) && r.terms.value["uri"] == JArr(uris)
    ensures !TermHasUri(r)
    ensures TermHasUri(c) ==> r.terms == Some(map["uri" := JArr(uris)])
    ensures TermHasUri(c) ==> (r.term.None? <==> c.term.value.Keys == {"uri"})
    ensures TermHasUri(c) && r.term.Some? ==> r.term.value == c.term.value - {"uri"}
    ensures !TermHasUri(c) ==> r.term == c.term && r.terms.value == c.terms.value["uri" := JArr(uris)]
  {
    if TermHasUri(c) then
      var t := c.term.value - {"uri"};
      assert t.Keys == c.term.value.Keys - {"uri"};
      assert c.term.value.Keys == {"uri"} ==> t.Keys == {} && t == map[];
      assert t == map[] ==> t.Keys == {} && c.term.value.Keys == {"uri"};
      c.(terms := Some(map["uri" := JArr(uris)]), term := if t == map[] then None else Some(t))
    else
      c.(terms := Some(c.terms.value["uri" := JArr(uris)]))
  }

  /** The position of the first clause that mentions `uri`. */
  function FirstUriClause(cs: seq<Clause>): (r: Option<nat>)
    ensures r.Some? ==> r.value < |cs| && MentionsUri(cs[r.value])
    ensures r.Some? ==> forall j :: 0 <= j < r.value ==> !MentionsUri(cs[j])
    ensures r.None? ==> forall j :: 0 <= j < |cs| ==> !MentionsUri(cs[j])
  {
    if cs == [] then None
    else if MentionsUri(cs[0]) then Some(0)
    else
      match FirstUriClause(cs[1..])
      case None => None
      case Some(k) => Some(k + 1)
  }

  /** The clause list with only its first `uri` clause rewritten. */
  function UriClauseRewritten(cs: seq<Clause>, uris: seq<Json>): (r: seq<Clause>)
    ensures |r| == |cs|
    ensures forall j :: 0 <= j < |cs| && FirstUriClause(cs) != Some(j) ==> r[j] == cs[j]
  {
    match FirstUriClause(cs)
    case None => cs
    case Some(k) => cs[k := RewriteClause(cs[k], uris)]
  }

  /** What `_expand_documents(q, uri)` returns. */
  function Expanded(q: BaseQuery, uri: UriArg, registry: seq<DocRecord>): BaseQuery {
    var uris := UriSeq(uri);
    var docs := Matching(registry, uris);
    if docs == [] then q
    else q.(clauses := UriClauseRewritten(q.clauses, AddNew(uris, AllHrefs(docs))))
  }

  /** The nested loop of `_expand_documents`: append every unseen href of every document. */
  method AppendDocumentUris(uris0: seq<Json>, docs: seq<DocRecord>) returns (uris: seq<Json>)
    ensures uris == AddNew(uris0, AllHrefs(docs))
  {
    uris := uris0;
    var i := 0;
    while i < |docs|
      invariant 0 <= i <= |docs|
      invariant uris == AddNew(uris0, AllHrefs(docs[..i]))
    {
      var us := Document.UrisFromLinks(docs[i].links.GetOr([]));
      ghost var start := uris;
      var j := 0;
      while j < |us|
        invariant 0 <= j <= |us|
        invariant uris == AddNew(start, us[..j])
      {
        assert us[..j + 1][..j] == us[..j];
        if us[j] !in uris {
          uris := uris + [us[j]];
        }
        j := j + 1;
      }
      assert us[..j] == us;
      AddNewConcat(uris0, AllHrefs(docs[..i]), us);
      assert docs[..i + 1][..i] == docs[..i];
      i := i + 1;
    }
    assert docs[..i] == docs;
  }

  /** Appending the unseen elements of `a + b` is appending those of `a`, then those of `b`. */
  lemma {:induction false} AddNewConcat(acc: seq<Json>, a: seq<Json>, b: seq<Json>)
    ensures AddNew(AddNew(acc, a), b) == AddNew(acc, a + b)
  {
    if b != [] {
      var b' := b[..|b| - 1];
      AddNewConcat(acc, a, b');
      assert (a + b)[..|a + b| - 1] == a + b';
    } else {
      assert a + b == a;
    }
  }

  /** The clause loop of `_expand_documents`: rewrite the first `uri` clause and stop. */
  method RewriteUriClause(clauses: seq<Clause>, uris: seq<Json>) returns (r: seq<Clause>)
    ensures r == UriClauseRewritten(clauses, uris)
  {
    r := clauses;
    var i := 0;
    while i < |clauses|
      invariant 0 <= i <= |clauses|
      invariant r == clauses
      invariant forall j :: 0 <= j < i ==> !MentionsUri(clauses[j])
    {
      var clause := clauses[i];
      if clause.term.Some? && "uri" in clause.term.value {
        clause := clause.(terms := Some(map["uri" := JArr(uris)]));
        var t := clause.term.value - {"uri"};
        clause := clause.(term := Some(t));
        if t == map[] {
          clause := clause.(term := None);
        }
        r := clauses[i := clause];
        assert FirstUriClause(clauses) == Some(i);
        return;
      }
      if clause.terms.Some? && "uri" in clause.terms.value {
        clause := clause.(terms := Some(clause.terms.value["uri" := JArr(uris)]));
        r := clauses[i := clause];
        assert FirstUriClause(clauses) == Some(i);
        return;
      }
      i := i + 1;
    }
  }

  /** `_expand_documents(q, uri)`. */
  method ExpandDocuments(q: BaseQuery, uri: UriArg, registry: seq<DocRecord>) returns (r: BaseQuery)
    ensures r == Expanded(q, uri, registry)
  {
    var uris := UriSeq(uri);
    var docs := Matching(registry, uris);
    if docs == [] {
      return q;
    }
    uris := AppendDocumentUris(uris, docs);
    var clauses := RewriteUriClause(q.clauses, uris);
    r := q.(clauses := clauses);
  }

  /**
   * Without a matching Document the query is unchanged. Otherwise only the
   * first `uri` clause changes, and its list keeps the original URIs as a
   * prefix, holds every href of every matching Document and appends no
   * href twice.
   */
  lemma ExpansionWidensUris(q: BaseQuery, uri: UriArg, registry: seq<DocRecord>)
    ensures Matching(registry, UriSeq(uri)) == [] ==> Expanded(q, uri, registry) == q
    ensures var e := Expanded(q, uri, registry);
            && e.matchQuery == q.matchQuery && e.top == q.top && |e.clauses| == |q.clauses|
            && (forall j :: 0 <= j < |q.clauses| && FirstUriClause(q.clauses) != Some(j) ==> e.clauses[j] == q.clauses[j])
    ensures Matching(registry, UriSeq(uri)) != [] && FirstUriClause(q.clauses).Some? ==>
              var c := Expanded(q, uri, registry).clauses[FirstUriClause(q.clauses).value];
              && TermsHasUri(c) && !TermHasUri(c) && c.terms.value["uri"].JArr?
              && var u := c.terms.value["uri"].items;
                 && |UriSeq(uri)| <= |u| && u[..|UriSeq(uri)|] == UriSeq(uri)
                 && (forall d, h :: d in registry && Matches(d, UriSeq(uri)) && h in DocUris(d) ==> h in u)
                 && (forall i :: |UriSeq(uri)| <= i < |u| ==> u[i] !in u[..i])
                 && (forall i :: |UriSeq(uri)| <= i < |u| ==>
                       exists d :: d in registry && Matches(d, UriSeq(uri)) && u[i] in DocUris(d))
  {
    var uris := UriSeq(uri);
    var docs := Matching(registry, uris);
    if docs != [] && FirstUriClause(q.clauses).Some? {
      var u := AddNew(uris, AllHrefs(docs));
      forall d, h | d in registry && Matches(d, uris) && h in DocUris(d)
        ensures h in u
      {
        var j :| 0 <= j < |docs| && docs[j] == d;
        assert h in AllHrefs(docs);
      }
    }
  }

  /** Each href belongs to at most one Document: no two records own the same href. */
  ghost predicate HrefsDisjoint(registry: seq<DocRecord>) {
    forall i, j, h :: 0 <= i < |registry| && 0 <= j < |registry| && Owns(registry[i], h) && Owns(registry[j], h) ==> i == j
  }

  /** An href a record owns is among its URIs. */
  lemma OwnedHrefIsUri(d: DocRecord, h: Json)
    requires Owns(d, h)
    ensures h in DocUris(d)
  {
    var l :| l in d.links.GetOr([]) && "href" in l && l["href"] == h;
    HrefOfMember(d.links.GetOr([]), l);
  }

  /** With disjoint hrefs, searching for one href of a record finds that record and nothing else. */
  lemma SearchFindsOwner(registry: seq<DocRecord>, k: nat, h: Json)
    requires HrefsDisjoint(registry) && k < |registry| && Owns(registry[k], h)
    ensures registry[k] in Matching(registry, [h])
    ensures forall d :: d in Matching(registry, [h]) ==> d == registry[k]
  {
    forall d | d in Matching(registry, [h])
      ensures d == registry[k]
    {
      var i :| 0 <= i < |registry| && registry[i] == d;
      var h' :| h' in [h] && Owns(d, h');
      assert Owns(registry[i], h);
    }
    assert h in [h];
    assert Matches(registry[k], [h]);
  }

  /** The elements of `AddNew(acc, hs)` are those of `acc` and those of `hs`. */
  lemma AddNewElements(acc: seq<Json>, hs: seq<Json>)
    ensures forall x :: x in AddNew(acc, hs) <==> x in acc || x in hs
  {
    var u := AddNew(acc, hs);
    forall x | x in u
      ensures x in acc || x in hs
    {
      var i :| 0 <= i < |u| && u[i] == x;
      if i < |acc| {
        assert u[..|acc|][i] == x;
      }
    }
  }

  /** The hrefs of copies of one record are that record's URIs. */
  lemma AllHrefsOfCopies(docs: seq<DocRecord>, d: DocRecord)
    requires d in docs && forall e :: e in docs ==> e == d
    ensures forall x :: x in AllHrefs(docs) <==> x in DocUris(d)
  {
    forall x | x in AllHrefs(docs)
      ensures x in DocUris(d)
    {
      var j :| 0 <= j < |docs| && x in DocUris(docs[j]);
      assert docs[j] in docs;
    }
    var j :| 0 <= j < |docs| && docs[j] == d;
  }

  /** With disjoint hrefs, the widened list for one href of a record holds exactly that record's URIs. */
  lemma WidenedUrisOfOwner(registry: seq<DocRecord>, k: nat, h: Json)
    requires HrefsDisjoint(registry) && k < |registry| && Owns(registry[k], h)
    ensures forall x :: x in AddNew([h], AllHrefs(Matching(registry, [h]))) <==> x in DocUris(registry[k])
  {
    SearchFindsOwner(registry, k, h);
    OwnedHrefIsUri(registry[k], h);
    AllHrefsOfCopies(Matching(registry, [h]), registry[k]);
    AddNewElements([h], AllHrefs(Matching(registry, [h])));
  }

  /** With a matching Document, the first `uri` clause is rewritten with the widened list. */
  lemma ExpandedClause(q: BaseQuery, uri: UriArg, registry: seq<DocRecord>)
    requires Matching(registry, UriSeq(uri)) != [] && FirstUriClause(q.clauses).Some?
    ensures var c := FirstUriClause(q.clauses).value;
            Expanded(q, uri, registry).clauses[c]
              == RewriteClause(q.clauses[c], AddNew(UriSeq(uri), AllHrefs(Matching(registry, UriSeq(uri)))))
  {
  }

  /** Rewriting one clause with two URI lists differs only in the list under `terms.uri`. */
  lemma RewritesDifferOnlyInUris(c: Clause, u1: seq<Json>, u2: seq<Json>)
    requires MentionsUri(c)
    ensures var r1, r2 := RewriteClause(c, u1), RewriteClause(c, u2);
            r1.rest == r2.rest && r1.term == r2.term && r1.terms.value - {"uri"} == r2.terms.value - {"uri"}
  {
    var r1, r2 := RewriteClause(c, u1), RewriteClause(c, u2);
    if !TermHasUri(c) {
      assert r1.terms.value - {"uri"} == c.terms.value - {"uri"};
      assert r2.terms.value - {"uri"} == c.terms.value - {"uri"};
    }
  }

  /**
   * URI equivalence: when each href belongs to one Document, searching by
   * any two hrefs of the same Document rewrites the first `uri` clause in
   * the same way up to the order of its URI list, whose elements are
   * exactly that Document's URIs.
   */
  lemma ExpansionSameForEquivalentUris(q: BaseQuery, s1: string, s2: string, registry: seq<DocRecord>, k: nat)
    requires HrefsDisjoint(registry) && k < |registry|
    requires Owns(registry[k], JStr(s1)) && Owns(registry[k], JStr(s2))
    requires FirstUriClause(q.clauses).Some?
    ensures var c := FirstUriClause(q.clauses).value;
            var c1 := Expanded(q, SingleUri(s1), registry).clauses[c];
            var c2 := Expanded(q, SingleUri(s2), registry).clauses[c];
            && TermsHasUri(c1) && TermsHasUri(c2) && c1.terms.value["uri"].JArr? && c2.terms.value["uri"].JArr?
            && c1.rest == c2.rest && c1.term == c2.term && c1.terms.value - {"uri"} == c2.terms.value - {"uri"}
            && (forall x :: x in c1.terms.value["uri"].items <==> x in DocUris(registry[k]))
            && (forall x :: x in c2.terms.value["uri"].items <==> x in DocUris(registry[k]))
  {
    var c := FirstUriClause(q.clauses).value;
    var h1, h2 := JStr(s1), JStr(s2);
    SearchFindsOwner(registry, k, h1);
    SearchFindsOwner(registry, k, h2);
    ExpandedClause(q, SingleUri(s1), registry);
    ExpandedClause(q, SingleUri(s2), registry);
    var u1 := AddNew([h1], AllHrefs(Matching(registry, [h1])));
    var u2 := AddNew([h2], AllHrefs(Matching(registry, [h2])));
    RewritesDifferOnlyInUris(q.clauses[c], u1, u2);
    WidenedUrisOfOwner(registry, k, h1);
    WidenedUrisOfOwner(registry, k, h2);
  }

  // ---------------------------------------------------------------------
  // Query builders
  // ---------------------------------------------------------------------

  /**
   * `Annotation._build_query`: the base query, widened when a `uri`
   * keyword was given, and wrapped in the permission filter `filter` when
   * authorization is on. A falsy filter refuses the query (`None`, the
   * source's `False`).
   */
  method BuildQuery(cfg: Config, base: BaseQuery, uri: Option<UriArg>, registry: seq<DocRecord>, filter: Json)
    returns (r: Option<map<string, Json>>)
    ensures r.None? <==> cfg.authzOn && !Truthy(filter)
    ensures r.Some? && !cfg.authzOn ==>
              r.value == QueryJson(if uri.Some? then Expanded(base, uri.value, registry) else base)
    ensures r.Some? && cfg.authzOn ==>
              UnwrapQuery(r.value) == Some((QueryJson(if uri.Some? then Expanded(base, uri.value, registry) else base), filter))
  {
    var q := base;
    if uri.Some? {
      q := ExpandDocuments(q, uri.value, registry);
    }
    var built := QueryJson(q);
    if cfg.authzOn {
      if !Truthy(filter) {
        return None;
      }
      UnwrapWrap(built, filter);
      built := WrapQuery(built, filter);
    }
    r := Some(built);
  }

  /** The body `_build_query_raw` returns in place of a query when the filter is falsy. */
  const AuthzErrorBody: map<string, Json> := map["error" := JStr("Authorization error!"), "status" := JNum(400)]

  /**
   * `Annotation._build_query_raw` on the base model's `(query, params)`:
   * with authorization on and a falsy filter the pair is the error body and
   * None; with a filter the query is wrapped exactly as `BuildQuery` wraps
   * it (which needs a `query` entry, and raises without one).
   */
  function BuildQueryRaw(cfg: Config, q: map<string, Json>, p: map<string, Json>, filter: Json)
    : (r: Result<(map<string, Json>, Option<map<string, Json>>), PyError>)
    ensures !cfg.authzOn ==> r == Ok((q, Some(p)))
    ensures cfg.authzOn && !Truthy(filter) ==> r == Ok((AuthzErrorBody, None))
    ensures cfg.authzOn && Truthy(filter) ==> (r.Ok? <==> "query" in q)
    ensures cfg.authzOn && Truthy(filter) && r.Ok? ==>
              r.value.1 == Some(p) && UnwrapQuery(r.value.0) == Some((q, filter))
  {
    if !cfg.authzOn then Ok((q, Some(p)))
    else if !Truthy(filter) then Ok((AuthzErrorBody, None))
    else if "query" !in q then Err(KeyError("query"))
    else
      UnwrapWrap(q, filter);
      Ok((WrapQuery(q, filter), Some(p)))
  }
}
