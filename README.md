# annotator-store core, modelled in Dafny

This project models the logic at the core of the annotator-store web service (Python, built on Flask and Elasticsearch). The service stores annotations: JSON objects with `text`, `tags`, `uri`, `ranges`, `user`, `permissions` and an optional embedded `document`. The model covers four parts:

- **Document link registry** (`document.dfy`, module `Documents`). A Document is an ordered list of `{type, href}` links plus other metadata. `Document.Uris` projects the hrefs. `Document.MergeLinks` appends, in place, every incoming link that has an `href` and a `type` and whose href the document did not know before the call.
- **Annotation model** (`annotation.dfy`, module `Annotations`):
  - default permissions;
  - `save`, which either creates a Document for the embedded document metadata or merges its links into the first Document that already owns one of its hrefs;
  - `_expand_documents`, which widens a `uri` search to every href of the matching Documents and rewrites the first `uri` clause of the query;
  - the permission wrapper `{'filtered': {'query': ..., 'filter': f}}` that the query builders put around a search when authorization is on.
- **Store request helpers** (`store.dfy`, module `Store`):
  - stripping server-controlled fields from payloads;
  - the owner normalisation;
  - the field rules of create and update, including the admin check on a change of permissions;
  - the split of `/search` parameters;
  - the translation of `/search_raw` GET parameters into an Elasticsearch query object, with `sort` parsing and `from`/`size` clamping.
- **Open Annotation rendering** (`openannotation.dfy`, module `OpenAnnotation`). A pure transform from an annotation to its JSON-LD form in the Open Annotation data model (context `oa-context-20130208`). It covers bodies, tags, motivations, targets with text-range selectors, agent and timestamps.

`json_data.dfy` (module `JsonData`) holds the shared representation:

- decoded JSON (`Json`);
- Python truthiness (`Truthy`) and `dict.get` (`Get`);
- `Option` and `Result`;
- `PyError`, the Python exceptions the code lets escape.

Modelling choices:

- **Document index.** The Elasticsearch document index is a sequence of records (`DocumentIndex.records`), searched in order. "The first search hit" is the first record in that sequence that owns one of the hrefs.
- **Collaborators whose code is not part of this model** become inputs:
  - the permission filter (`filter: Json`; the query is refused when it is falsy);
  - the authorization decision (`authorize`);
  - the requesting user;
  - `atoi` and `_csv_split` (the `Helpers` record);
  - the configuration values `AUTHZ_ON`, `GROUP_CONSUMER` and `RESULTS_MAX_SIZE` (the `Config` record).
- **Exceptions.** An exception that escapes in the source is an `Err` (or `Reply.Raised`) in the model.
- **In-place updates.** Stateful code is modelled as methods with loops and invariants. Each method's `ensures` ties its result to a specification function, and lemmas state the properties of those functions. `Document.MergeLinks` and `Annotation.Save` update their objects in place. `DocumentIndex.records` is reassigned by `save`, create and update.

## Model

| member | source | states |
|---|---|---|
| Documents.Document.Uris | annotator/document.py:32-34 | one href per link, in link order (`Hrefs`); a document without a `link` key has no URIs |
| Documents.Document.UrisFromLinks | annotator/document.py:42-46 | `link.get('href')` of every link, in order, one entry per link |
| Documents.Hrefs | annotator/document.py:42-46 | the projection has the links' length and gives the href (or None) of link i at position i |
| Documents.Document.MergeLinks | annotator/document.py:36-40 | with a `link` list, the links become `MergedLinks(old, incoming)`: the old list followed by the eligible incoming links, judged against the hrefs snapshotted before the loop. Without a `link` key the call fails (`ok` false) exactly when some incoming link has `href` and `type`, and the link list stays unchanged |
| Documents.MergedLinks | annotator/document.py:36-40 | the link list after `merge_links`: the existing links followed by `NewLinks` of the href snapshot; its properties are the lemmas `MergeAppendsOnlyEligible`, `MergeCovers` and `MergeIdempotent` |
| Documents.NewLinks | annotator/document.py:37-39 | appended links come from the incoming list, have `href` and `type`, and have an href outside the snapshot; at most one per incoming link |
| Documents.NewLinksInIncomingOrder | annotator/document.py:37-39 | the appended links keep incoming order and multiplicity: the links taken from `a + b` are those taken from `a` followed by those taken from `b`, and a single link is taken exactly when it is eligible |
| Documents.NewLinksComplete | annotator/document.py:38-40 | every incoming link that has `href` and `type` and an unknown href is appended |
| Documents.NothingEligibleNothingNew | annotator/document.py:38-40 | with no eligible incoming link, nothing is appended |
| Documents.MergeAppendsOnlyEligible | annotator/document.py:36-40 | the old links are a prefix of the new list; everything after it is an incoming link with `href` and `type` and a previously unknown href; every such incoming link is appended |
| Documents.MergeCovers | annotator/document.py:36-40 | after the merge, every incoming link with `href` and `type` has its href among the document's URIs |
| Documents.MergeIdempotent | annotator/document.py:37-39 | merging the same links a second time changes nothing |
| Documents.RepeatedNewLinkAppendedTwice | annotator/document.py:37-40 | because the hrefs are snapshotted once, any two eligible incoming links `incoming[i]`, `incoming[j]` with `i < j` are both appended after the old links, in that order, even when they carry the same new href |
| Documents.HrefOfMember | annotator/document.py:44-45 | the href of any link in a list is among the list's URIs |
| Annotations.WithDefaultPermissions | annotator/annotation.py:126-128 | afterwards `permissions` is present; an existing value, and every other entry, is kept; when absent it becomes `{'read': [GROUP_CONSUMER]}`; no other key is added |
| Annotations.DefaultPermissionsIdempotent | annotator/annotation.py:126-128 | adding the default permissions twice is the same as adding them once |
| Annotations.Annotation.AddDefaultPermissions | annotator/annotation.py:126-128 | the annotation's fields become `WithDefaultPermissions` of the old fields |
| Annotations.LinkObjects | annotator/annotation.py:54 | reading the embedded links succeeds exactly when every element is an object with an `href`, and then it gives those objects in order |
| Annotations.EmbeddedLinks | annotator/annotation.py:53-54 | an object whose `link` is a list gives exactly `LinkObjects` of that list; a missing `link` raises `KeyError('link')`; a non-object document or a `link` that is not a list raises `TypeError`; a success always comes from a well-formed document |
| Annotations.FirstMatch | annotator/annotation.py:56-62 | the first registry record that owns one of the hrefs; it has a `link` list, and no earlier record matches |
| Annotations.Matching | annotator/annotation.py:103-104 | every record found owns one of the hrefs and is in the registry, and every registry record that owns one of the hrefs is found |
| Annotations.MatchingInRegistryOrder | annotator/annotation.py:103-104 | the search keeps registry order: searching `a + b` gives the matches of `a` followed by those of `b`, and a single record is found exactly when it owns one of the hrefs |
| Annotations.MatchingStartsAtFirstMatch | annotator/annotation.py:58-62 | the search result is empty exactly when there is no first match, and otherwise starts with it (`docs[0]`) |
| Annotations.SaveCreatesOrMerges | annotator/annotation.py:52-65 | with no owning record, exactly one new record is appended, built from the embedded document. Otherwise the first match becomes `MergedRecord(match, links)`, so the `merge_links` lemmas apply to it: it keeps its metadata and old links, and no record is created. All other records are unchanged. Every embedded link with `href` and `type` ends up among some record's URIs |
| Annotations.SavedRecords | annotator/annotation.py:52-65 | the index after `save`: unchanged without `document`; the error of reading the embedded links; otherwise a new record holding the links when no Document owns one of their hrefs, else the first owner with the links merged; its properties are stated by `SaveCreatesOrMerges` |
| Annotations.Annotation.Save | annotator/annotation.py:45-67 | default permissions are applied first. The index then becomes `SavedRecords(fields, old index)` and the fields are handed on for persisting. A malformed embedded document raises before anything is stored |
| Annotations.QueryJson | annotator/annotation.py:71 | the base query keeps its other top-level entries, and its `query` entry is exactly `{'filtered': {'query': matchQuery, 'filter': {'and': clauses}}}`, with one rendered clause per clause, in order. This is the shape that annotation.py:111 reads |
| Annotations.UnwrapWrap | annotator/annotation.py:83-95 | the permission wrapper keeps the old query intact: unwrapping gives back exactly the query and the filter |
| Annotations.WrapQuery | annotator/annotation.py:95 | `q['query']` becomes `{'filtered': {'query': q['query'], 'filter': f}}`; `UnwrapWrap` proves that `UnwrapQuery` gives back the query and the filter |
| Annotations.AllHrefs | annotator/annotation.py:106-107 | every href of every given document is in the concatenation, and every element of the concatenation is an href of one of the given documents |
| Annotations.AddNew | annotator/annotation.py:106-109 | the original URI list stays as a prefix; every candidate href ends up in the list; each appended href is a candidate that was not already present |
| Annotations.AddNewConcat | annotator/annotation.py:106-109 | appending the unseen hrefs document by document equals appending those of all documents at once |
| Annotations.AppendDocumentUris | annotator/annotation.py:106-109 | the nested loop computes `AddNew(uris, AllHrefs(docs))` |
| Annotations.RewriteClause | annotator/annotation.py:113-121 | a `term` clause gets `terms: {uri: list}`, loses `uri` from its `term` part, and loses the `term` part exactly when `uri` was its only key; a `terms` clause gets the new `uri` list and keeps its other keys; the rest of the clause is unchanged |
| Annotations.FirstUriClause | annotator/annotation.py:112-121 | the position of the first clause mentioning `uri` in `term` or `terms`; no earlier clause does |
| Annotations.UriClauseRewritten | annotator/annotation.py:111-121 | the clause list keeps its length, and every clause other than the first `uri` clause is unchanged |
| Annotations.RewriteUriClause | annotator/annotation.py:111-121 | the clause loop, with its `break`, computes `UriClauseRewritten` |
| Annotations.ExpandDocuments | annotator/annotation.py:100-123 | computes `Expanded(q, uri, registry)`, turning a single string `uri` into a one-element list |
| Annotations.ExpansionWidensUris | annotator/annotation.py:100-123 | unchanged when no Document matches. Otherwise only the first `uri` clause changes. Its list keeps the original URIs as a prefix and holds every href of every matching Document; each appended href is an href of some matching Document and is not already in the list before it |
| Annotations.AddNewElements | annotator/annotation.py:106-109 | the widened list holds exactly the original URIs and the candidate hrefs |
| Annotations.SearchFindsOwner | annotator/annotation.py:102-103 | when no two records own the same href, searching for an href of a record finds that record and nothing else |
| Annotations.WidenedUrisOfOwner | annotator/annotation.py:101-109 | when no two records own the same href, the widened list for an href of a record holds exactly that record's URIs |
| Annotations.ExpansionSameForEquivalentUris | annotator/annotation.py:100-123 | URI equivalence: when no two records own the same href, searching by any two hrefs of one Document rewrites the first `uri` clause identically except for the order of its URI list, whose elements are exactly that Document's URIs |
| Annotations.Expanded | annotator/annotation.py:100-123 | `_expand_documents` as a value: no change without a matching Document, otherwise the first `uri` clause rewritten to the widened list; stated by `ExpansionWidensUris` and computed by `ExpandDocuments` |
| Annotations.BuildQuery | annotator/annotation.py:70-85 | refused (None, the source's `False`) exactly when authorization is on and the filter is falsy. With authorization off, the (expanded) base query is returned unwrapped. Otherwise it is wrapped: unwrapping gives back the expanded query and the filter |
| Annotations.BuildQueryRaw | annotator/annotation.py:88-97 | authorization off: `(q, p)` unchanged. Falsy filter: `({'error': 'Authorization error!', 'status': 400}, None)`. Otherwise the query is wrapped like `BuildQuery` (a `KeyError` when `q` has no `query`) and unwraps to `(q, filter)` |
| Store.Stripped | annotator/store.py:348-352 | exactly the listed keys are removed; every other key keeps its value |
| Store.FilterInput | annotator/store.py:348-352 | the pop loop computes `Stripped`: a key survives exactly when it was present and is not listed |
| Store.OwnerRoundTrip | annotator/store.py:355-365 | a missing or falsy owner reads as None; a plain owner reads back unchanged; an object-valued owner reads as its `id`, or None |
| Store.AnnotationUser | annotator/store.py:355-365 | the owner guess: None for a falsy `user`, the `id` of a `user` object (None without one), and the `user` value itself otherwise; `OwnerRoundTrip` states what it reads back after the owner is set |
| Store.CreateFieldRules | annotator/store.py:188-196 | a created annotation has no `id`, `created` or `updated`. Its `consumer` is the requester's consumer key and its owner reads as the requester's id. Any stored `user` is the requester's id, or the payload's own value when that already reads as the requester's id. Other payload entries are kept |
| Store.CreateDefaultsPermissions | annotator/annotation.py:126-128 | a payload without `permissions` is stored with `{'read': [GROUP_CONSUMER]}` |
| Store.CreatedAnnotation | annotator/store.py:189-196 | the filtered payload with the requester's consumer key, and with the requester's id as `user` unless the owner already reads as that id; its properties are stated by `CreateFieldRules` and `CreateDefaultsPermissions` |
| Store.CreateAnnotation | annotator/store.py:183-211 | an anonymous request is refused with 401; a missing JSON payload or the JSON body `null` (both `request.json is None`) gives 400; any other non-object payload raises. Otherwise the filtered payload, with forced consumer and owner and the default permissions, is saved through `Save`: the index follows `SavedRecords` and the reply is the saved annotation |
| Store.UpdateFieldRules | annotator/store.py:241-257 | an applied update has the URL's id whatever the payload says. It keeps the stored `updated`, `created`, `user` and `consumer`, takes every other payload entry, and keeps the stored entries the payload lacks |
| Store.AdminCheckOnlyForPermissionChange | annotator/store.py:246-255 | once the update itself is authorized, it is refused for want of `admin` exactly when the payload's `permissions` differ from the current ones (default `{}`) and the admin action is not authorized. It is applied exactly otherwise |
| Store.UpdateDecision | annotator/store.py:231-257 | the decision of `update_annotation`: 404 for a missing or empty annotation, 401 for a refused update, unchanged for a missing or `null` body, the error of popping from a non-object body, 401 for a refused admin check on changed permissions, else the merged annotation; stated by `UpdateFieldRules`, `AdminCheckOnlyForPermissionChange` and `UpdateAnnotation` |
| Store.UpdateAnnotation | annotator/store.py:231-268 | a missing or empty annotation gives 404; a refused update or admin check gives 401; without a payload, or with the JSON body `null`, the stored annotation is returned and nothing is saved. Otherwise the merged annotation is saved through `Save` and returned |
| Store.SearchArgs | annotator/store.py:297-312 | `offset` and `limit` leave the searched fields and are converted with `atoi(..., default=None)`; every other parameter stays a searched field with its value; the user is passed exactly when authorization is on |
| Store.UpdateQueryRaw | annotator/store.py:417-453 | `query.query_string` always exists. `q` and `df` set its `query` and `default_field`. The control keys set top-level entries; `fields` gets the comma split; `sort` appends one entry; `search_type` goes to the params. Nothing else changes. An empty sort split raises `IndexError` and is the only error |
| Store.ApplyQueryParameter | annotator/store.py:417-453 | updating the nested `query_string` object, writing it back and then setting the top-level entry yields exactly the query object and params that `UpdateQueryRaw` describes, including the `IndexError` of an empty sort split |
| Store.SortEntryRejoins | annotator/store.py:443-450 | a sort value with one segment gives the bare field name. With two or more segments it gives the one entry `{fld: drn}`, where `drn` is the last segment and `fld` the others joined by `:`; `fld + ":" + drn` rejoins into the split value |
| Store.SortEntry | annotator/store.py:439-450 | one `sort` entry from the split value: a bare field for one segment, `{fld: drn}` for several, and `IndexError` for an empty split; stated by `SortEntryRejoins` |
| Store.JoinLast | annotator/store.py:448 | `sep.join(parts)` is the join of all but the last part, then `sep`, then the last part |
| Store.FoldArgs | annotator/store.py:390-392 | after any parameters the query object keeps its shape and has a `query` entry; no parameters leave it empty |
| Store.FoldErrSticky | annotator/store.py:390-392 | once a parameter raises, the whole parameter loop raises the same error |
| Store.SortStep | annotator/store.py:439-450 | a `sort` parameter appends its entry to the sort list, creating it if needed; any other parameter leaves the sort list unchanged |
| Store.SortsInRequestOrder | annotator/store.py:439-450 | the query has a `sort` list exactly when some parameter is `sort`, and the list holds one entry per `sort` parameter, in request order |
| Store.UnknownParameterIgnored | annotator/store.py:417-453 | once a query exists, a parameter the builder does not know changes nothing |
| Store.ClampPaging | annotator/store.py:408-412 | `from` becomes `max(0, atoi(from))` and `size` becomes `min(RESULTS_MAX_SIZE, max(0, atoi(size)))`, so they lie in range; no key is added or removed, and nothing else changes |
| Store.ApplyQueryParameters | annotator/store.py:390-392 | the GET loop computes `FoldArgs`: each parameter is applied by `ApplyQueryParameter` in request order, and the first one that raises ends the loop with its error |
| Store.BuildQueryRaw | annotator/store.py:386-414 | the method computes `RawQuery`: the GET loop through `ApplyQueryParameters` and the `match_all` default, or the POST body and URL parameters, then the paging clamp |
| Store.RawQuery | annotator/store.py:386-414 | `_build_query_raw` as a value: the folded GET parameters with `match_all` when no `query` was given, or the decoded POST object with the URL parameters; `from` and `size` clamped in both; stated by `RawQueryBounds` and `SortsInRequestOrder`, computed by `BuildQueryRaw` |
| Store.RawQueryBounds | annotator/store.py:394-412 | in both query and params, `from` is at least 0 and `size` lies between 0 and `RESULTS_MAX_SIZE`. A GET query always has a `query` entry, and a GET without parameters gives `{'query': {'match_all': {}}}` and empty params |
| Store.RawGetSearchIsFiltered | annotator/annotation.py:88-97 | with authorization on and a filter, applying the annotation model's wrapper (annotation.py:88-97) to the query that store.py:386-414 builds from GET parameters succeeds and wraps exactly that query in the filter |
| OpenAnnotation.TextualBodiesCarryText | annotator/openannotation.py:55-65 | no text body when `text` is missing or empty. Otherwise exactly one `dctypes:Text` body, whose `cnt:chars` is the text |
| OpenAnnotation.TextualBodies | annotator/openannotation.py:55-65 | `textual_bodies`; stated by `TextualBodiesCarryText` |
| OpenAnnotation.CharsOf | annotator/openannotation.py:76 | reads back the `cnt:chars` of each body, one entry per body, in order |
| OpenAnnotation.TagsRoundTrip | annotator/openannotation.py:68-79 | one `oa:Tag` body per tag, in order and count; reading the bodies' contents back gives the tags. No `tags` key gives no bodies, and values that are not iterable raise |
| OpenAnnotation.TagValues | annotator/openannotation.py:70-78 | the values `for tag in self['tags']` iterates, or the `TypeError` of a value that is not iterable; stated by `TagsRoundTrip` |
| OpenAnnotation.Tags | annotator/openannotation.py:68-79 | `tags`: one `oa:Tag` body per tag value; stated by `TagsRoundTrip` |
| OpenAnnotation.BodiesInOrder | annotator/openannotation.py:47-52 | `hasBody` is the textual bodies followed by the tag bodies, and nothing else |
| OpenAnnotation.HasBody | annotator/openannotation.py:47-52 | `has_body`; stated by `BodiesInOrder` |
| OpenAnnotation.MotivationsMatchBodies | annotator/openannotation.py:82-92 | `oa:commenting` is present exactly when there is a non-empty text and `oa:tagging` exactly when there are tags, in that order, nothing twice, nothing else |
| OpenAnnotation.MotivatedBy | annotator/openannotation.py:82-92 | `motivated_by`; stated by `MotivationsMatchBodies` |
| OpenAnnotation.RangeTargets | annotator/openannotation.py:106-119 | one target per range, in order, each built from its range, when every range is an object with the four range keys. Otherwise the error of the first bad range |
| OpenAnnotation.RangeTarget | annotator/openannotation.py:107-118 | the `oa:SpecificResource` target for one well-formed range; `TargetsCarryRanges` states that its selector gives back the four range fields |
| OpenAnnotation.TargetsCarryRanges | annotator/openannotation.py:95-123 | no targets without `uri`, and `[uri]` when `ranges` is missing or empty. Otherwise there is one `oa:SpecificResource` per range pointing at the uri, whose selector gives back the range's `start`, `end`, `startOffset` and `endOffset` |
| OpenAnnotation.HasTarget | annotator/openannotation.py:95-123 | `has_target`; stated by `TargetsCarryRanges` |
| OpenAnnotation.AgentAndTimesCopied | annotator/openannotation.py:126-158 | the agent is `[]` exactly for a falsy owner, and otherwise a `foaf:Agent` named by the owner. `annotatedAt` and `serializedAt` are `created` and `updated` when set, and None otherwise |
| OpenAnnotation.AnnotatedBy | annotator/openannotation.py:126-133 | `annotated_by`; stated by `AgentAndTimesCopied` |
| OpenAnnotation.AnnotatedAt | annotator/openannotation.py:136-139 | `annotated_at`; stated by `AgentAndTimesCopied` |
| OpenAnnotation.SerializedAt | annotator/openannotation.py:152-158 | `serialized_at`; stated by `AgentAndTimesCopied` |
| OpenAnnotation.JsonLdShape | annotator/openannotation.py:20-44 | rendering fails exactly when the id is missing, the tags are not iterable or a range is malformed. Otherwise the entries come in the fixed order. `@id` is the id, `@type` is `oa:Annotation`, `@context` is `Context(base)`, `serializedBy` is the constant `SerializedBy`, and each other property entry is its property |
| OpenAnnotation.JsonLd | annotator/openannotation.py:20-44 | `jsonld` as its ordered entries; `serializedBy` is the constant `SerializedBy` of openannotation.py:142-149; stated by `JsonLdShape` |
| OpenAnnotation.LookupAt | annotator/openannotation.py:33-43 | reading an entry by name finds its value when no earlier entry has that name |
| OpenAnnotation.ContextBase | annotator/openannotation.py:23-29 | the context is the Open Annotation context and the `annotator` prefix, plus `{'@base': url}` exactly when a base URL is set |
| OpenAnnotation.Context | annotator/openannotation.py:23-29 | the `@context` list; stated by `ContextBase` |
| OpenAnnotation.TestAnnotationBodies | tests/test_openannotation.py:10-54 | the test annotation has exactly the expected text body, and motivation `oa:commenting` |
| OpenAnnotation.TestAnnotationTargets | tests/test_openannotation.py:56-66 | the test annotation has exactly the expected range target |
| OpenAnnotation.JsonLdOfTestAnnotation | tests/test_openannotation.py:37-76 | the rendering of the test annotation has `@id` `1234`, `@type` `oa:Annotation`, the expected body and target, the agent `alice`, and `created`/`updated` as its times |

## Left out

- Flask plumbing is not modelled: routing, `jsonify`, CORS headers, the root link catalogue, content negotiation and `render`. The HTTP status of an escaping exception is likewise not modelled.
- Elasticsearch persistence and transport are not modelled: `es.Model` (`save`, `fetch`, `search`, `count`, the base `_build_query`) and `TransportError` handling. The index is a sequence of records, and the base query is the typed `BaseQuery`. The search page-size limit of the Elasticsearch client is not modelled, so a search sees every matching record. Search results come in index order (`MatchingInRegistryOrder`); Elasticsearch's relevance ranking, which decides `docs[0]` in the source, is not modelled.
- The authorization rules are inputs. The permission filter, `g.authorize` and the requesting user come from modules that are not part of this model. Likewise `atoi` and `_csv_split`, whose code is not part of this model, are arbitrary functions.
- Lifecycle hooks (`before_/after_annotation_*`) are not modelled; they act as no-ops. The `refresh` flag of `save` has no effect on the model.
- Concurrency is not modelled: two saves that both find no Document and both create one.
- Timestamps are inputs: `_add_created`/`_add_updated` are not part of this model, and neither is the date format checked by the test. The `OrderedDict` import fallback and logging are environment setup; the rendering is a sequence of entries, in order.
- The routes `read_annotation`, `delete_annotation`, `index` and `search_annotations_raw`'s error formatting are plumbing and are not modelled. `_check_action` is modelled only as the authorize decision, and the `_failed_authz_response` message text is left out.
- JSON numbers are integers; floating point is not modelled.
- `Documents.Eligible`, `Annotations.AddNew` and `Store.ChangingPermissions`: JSON values are compared structurally. Python's `==` treats `True` as `1` and `False` as `0`, so an href `true` against a known `1`, or permissions differing only in such a value, count as equal in the source but as different in the model.
- `Annotations.EmbeddedLinks`: an embedded `link` given as an empty string or an empty object is refused (`TypeError`). Python would iterate it as an empty sequence.
- `OpenAnnotation.TagValues`: a non-empty object given as `tags` is refused (`TypeError`). Python iterates its keys, whose order a map does not fix.
- `Store.RawQuery`: a POST body that decodes to a list, a string or a number is refused with `TypeError`. In Python, membership tests on a list or a string succeed. The decoding itself (`json.loads` of the body, data or form) is an input that either yields a value or fails with `ValueError`.
- `Store.RawQuery`: the URL parameters of a POST request become a mutable map of strings, so their `from`/`size` are clamped. In Flask they are an immutable multi-dict, where that assignment would fail.
- `Store.RawQuery`: the GET parameters are the pairs of `iteritems(request.args)`, one per key (its first value). The model accepts any sequence of pairs, so repeated keys are covered as well.
- `Annotations.ExpandDocuments`: `uri.append` in the source grows the caller's own list in place through aliasing. The model returns the widened list as a value.
- `Store.RawGetSearchIsFiltered`: `search_annotations_raw` hands the store's query to `search_raw` (store.py:326-337), whose code is not part of this model. That `search_raw` applies the annotation model's wrapper of annotation.py:88-97 to that query is assumed; the shown `Annotation._build_query_raw` takes a request and calls the base class's builder.
- `Annotations.BuildQuery`: the `uri` keyword is passed explicitly. `/search` puts `uri` inside `kwargs['query']` rather than into the keywords themselves, and whether `es.Model.search` forwards it is beyond this model.
