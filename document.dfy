/**
 * The document link registry: a Document is an ordered list of links
 * (JSON objects that normally carry `type` and `href`) plus descriptive
 * metadata. `Uris` projects the hrefs; `MergeLinks` appends every incoming
 * link whose href the document did not already know.
 */
module Documents {
  import opened JsonData

  /** A link of a document: a JSON object, normally `{type, href}`. */
  type Link = map<string, Json>

  /** `link.get('href')`: the href, or None for a link without one. */
  function HrefOf(l: Link): Json {
    Get(l, "href")
  }

  /** The hrefs of a list of links: one entry per link, in link order. */
  function Hrefs(links: seq<Link>): (r: seq<Json>)
    ensures |r| == |links|
    ensures forall i :: 0 <= i < |links| ==> r[i] == HrefOf(links[i])
  {
    if links == [] then [] else Hrefs(links[..|links| - 1]) + [HrefOf(links[|links| - 1])]
  }

  /** A link that `merge_links` is prepared to take: it has both `href` and `type`. */
  predicate Mergeable(l: Link) {
    "href" in l && "type" in l
  }

  /** A link `merge_links` appends, given the hrefs known before the call. */
  predicate Eligible(l: Link, current: seq<Json>) {
    Mergeable(l) && l["href"] !in current
  }

  /**
   * The links `merge_links` appends, in incoming order. `current` is the
   * snapshot of the document's hrefs taken once, before the loop.
   */
  function NewLinks(current: seq<Json>, incoming: seq<Link>): (r: seq<Link>)
    ensures |r| <= |incoming|
    ensures forall k :: 0 <= k < |r| ==> Eligible(r[k], current) && r[k] in incoming
  {
    if incoming == [] then []
    else
      var init := NewLinks(current, incoming[..|incoming| - 1]);
      var l := incoming[|incoming| - 1];
      if Eligible(l, current) then init + [l] else init
  }

  /** The link list of a document after `merge_links(incoming)`. */
  function MergedLinks(existing: seq<Link>, incoming: seq<Link>): seq<Link> {
    existing + NewLinks(Hrefs(existing), incoming)
  }

  /** A document as the index stores it: `link` (absent or a list) and every other field. */
  datatype DocRecord = DocRecord(links: Option<seq<Link>>, meta: map<string, Json>)

  /** `uris()` of a stored record. */
  function DocUris(d: DocRecord): seq<Json> {
    Hrefs(d.links.GetOr([]))
  }

  /** The record owns `h` when one of its links has `h` as its href. */
  predicate Owns(d: DocRecord, h: Json) {
    exists l :: l in d.links.GetOr([]) && "href" in l && l["href"] == h
  }

  class Document {
    var links: Option<seq<Link>>
    var meta: map<string, Json>

    constructor (r: DocRecord)
      ensures Record() == r
    {
      links := r.links;
      meta := r.meta;
    }

    /** The document as a value, as `save` writes it to the index. */
    function Record(): DocRecord
      reads this
    {
      DocRecord(links, meta)
    }

    /** `self.get('link', [])`. */
    function LinkList(): seq<Link>
      reads this
    {
      links.GetOr([])
    }

    /** `uris()`: one href per link, in link order; none without a `link` key. */
    method Uris() returns (uris: seq<Json>)
      ensures uris == Hrefs(LinkList())
      ensures links.None? ==> uris == []
    {
      uris := UrisFromLinks(LinkList());
    }

    /** `_uris_from_links`: the href (or None) of each link, in order. */
    static method UrisFromLinks(ls: seq<Link>) returns (uris: seq<Json>)
      ensures uris == Hrefs(ls)
    {
      uris := [];
      var i := 0;
      while i < |ls|
        invariant 0 <= i <= |ls|
        invariant uris == Hrefs(ls[..i])
      {
        assert ls[..i + 1][..i] == ls[..i];
        uris := uris + [HrefOf(ls[i])];
        i := i + 1;
      }
      assert ls[..i] == ls;
    }

    /**
     * `merge_links(incoming)`. The hrefs are snapshotted once; every incoming
     * link with `href` and `type` whose href is not in the snapshot is
     * appended in place. Without a `link` key the first such append raises
     * (`ok` is false) and nothing has changed.
     */
    method MergeLinks(incoming: seq<Link>) returns (ok: bool)
      modifies this`links
      ensures ok <==> old(links).Some? || forall i :: 0 <= i < |incoming| ==> !Eligible(incoming[i], [])
      ensures old(links).Some? ==> links == Some(MergedLinks(old(links).value, incoming))
      ensures old(links).None? ==> links == old(links)
    {
      var current := Uris();
      var i := 0;
      assert incoming[..0] == [];
      assert old(links).Some? ==> old(links).value + [] == old(links).value;
      while i < |incoming|
        invariant 0 <= i <= |incoming|
        invariant current == Hrefs(old(links).GetOr([]))
        invariant old(links).Some? ==> links == Some(old(links).value + NewLinks(current, incoming[..i]))
        invariant old(links).None? ==> links == old(links) && current == []
        invariant old(links).None? ==> forall j :: 0 <= j < i ==> !Eligible(incoming[j], [])
      {
        assert incoming[..i + 1][..i] == incoming[..i];
        var l := incoming[i];
        assert NewLinks(current, incoming[..i + 1]) ==
          NewLinks(current, incoming[..i]) + (if Eligible(l, current) then [l] else []);
        if "href" in l && "type" in l && l["href"] !in current {
          if links.None? {
            return false;
          }
          links := Some(links.value + [l]);
          assert links.value == old(links).value + (NewLinks(current, incoming[..i]) + [l]);
        }
        i := i + 1;
      }
      assert incoming[..i] == incoming;
      return true;
    }
  }

  /** A link is in a list exactly when its href shows up at its position. */
  lemma HrefOfMember(ls: seq<Link>, l: Link)
    requires l in ls
    ensures HrefOf(l) in Hrefs(ls)
  {
    var i :| 0 <= i < |ls| && ls[i] == l;
    assert Hrefs(ls)[i] == HrefOf(l);
  }

  /** Every eligible incoming link is among the appended ones. */
  lemma {:induction false} NewLinksComplete(current: seq<Json>, incoming: seq<Link>)
    ensures forall i :: 0 <= i < |incoming| && Eligible(incoming[i], current) ==>
              incoming[i] in NewLinks(current, incoming)
  {
    if incoming != [] {
      var init := incoming[..|incoming| - 1];
      NewLinksComplete(current, init);
      forall i | 0 <= i < |incoming| && Eligible(incoming[i], current)
        ensures incoming[i] in NewLinks(current, incoming)
      {
        if i < |incoming| - 1 {
          assert incoming[i] == init[i];
        }
      }
    }
  }

  /** With no eligible incoming link nothing is appended. */
  lemma {:induction false} NothingEligibleNothingNew(current: seq<Json>, incoming: seq<Link>)
    requires forall i :: 0 <= i < |incoming| ==> !Eligible(incoming[i], current)
    ensures NewLinks(current, incoming) == []
  {
    if incoming != [] {
      var init := incoming[..|incoming| - 1];
      assert forall i :: 0 <= i < |init| ==> init[i] == incoming[i];
      NothingEligibleNothingNew(current, init);
    }
  }

  /**
   * `merge_links` never removes or reorders links, and appends exactly the
   * links with `href` and `type` whose href was unknown before the call.
   */
  lemma MergeAppendsOnlyEligible(existing: seq<Link>, incoming: seq<Link>)
    ensures |existing| <= |MergedLinks(existing, incoming)|
    ensures MergedLinks(existing, incoming)[..|existing|] == existing
    ensures forall k :: |existing| <= k < |MergedLinks(existing, incoming)| ==>
              var l := MergedLinks(existing, incoming)[k];
              l in incoming && Mergeable(l) && l["href"] !in Hrefs(existing)
    ensures forall i :: 0 <= i < |incoming| && Eligible(incoming[i], Hrefs(existing)) ==>
              incoming[i] in MergedLinks(existing, incoming)[|existing|..]
  {
    var m := MergedLinks(existing, incoming);
    assert m[|existing|..] == NewLinks(Hrefs(existing), incoming);
    NewLinksComplete(Hrefs(existing), incoming);
  }

  /** After `merge_links(incoming)` every incoming link with `href` and `type` has its href among the URIs. */
  lemma MergeCovers(existing: seq<Link>, incoming: seq<Link>)
    ensures forall i :: 0 <= i < |incoming| && Mergeable(incoming[i]) ==>
              incoming[i]["href"] in Hrefs(MergedLinks(existing, incoming))
  {
    var c := Hrefs(existing);
    var m := MergedLinks(existing, incoming);
    NewLinksComplete(c, incoming);
    forall i | 0 <= i < |incoming| && Mergeable(incoming[i])
      ensures incoming[i]["href"] in Hrefs(m)
    {
      var l := incoming[i];
      if l["href"] in c {
        var j :| 0 <= j < |c| && c[j] == l["href"];
        assert Hrefs(m)[j] == HrefOf(m[j]) == HrefOf(existing[j]);
      } else {
        assert l in NewLinks(c, incoming);
        assert l in m;
        HrefOfMember(m, l);
      }
    }
  }

  /** `merge_links` is idempotent: a second call with the same links appends nothing. */
  lemma MergeIdempotent(existing: seq<Link>, incoming: seq<Link>)
    ensures MergedLinks(MergedLinks(existing, incoming), incoming) == MergedLinks(existing, incoming)
  {
    var m := MergedLinks(existing, incoming);
    MergeCovers(existing, incoming);
    NothingEligibleNothingNew(Hrefs(m), incoming);
  }

  /**
   * The appended links keep incoming order: the links taken from two
   * consecutive stretches of the incoming list are those of the first, then
   * those of the second, and a single link is taken exactly when it is
   * eligible.
   */
  lemma {:induction false} NewLinksInIncomingOrder(current: seq<Json>, a: seq<Link>, b: seq<Link>)
    ensures NewLinks(current, a + b) == NewLinks(current, a) + NewLinks(current, b)
    ensures |b| == 1 ==> NewLinks(current, b) == (if Eligible(b[0], current) then [b[0]] else [])
    decreases |b|
  {
    if b == [] {
      assert a + b == a;
    } else {
      var b', last := b[..|b| - 1], b[|b| - 1];
      var taken := if Eligible(last, current) then [last] else [];
      NewLinksInIncomingOrder(current, a, b');
      assert (a + b)[..|a + b| - 1] == a + b';
      assert (a + b)[|a + b| - 1] == last;
      assert NewLinks(current, b) == NewLinks(current, b') + taken;
      assert NewLinks(current, a + b) == NewLinks(current, a + b') + taken;
      if |b| == 1 {
        assert b' == [];
      }
    }
  }

  /**
   * The hrefs are snapshotted once, so two eligible incoming links are both
   * appended, in incoming order, even when they carry the same new href:
   * the first does not make the second known.
   */
  lemma RepeatedNewLinkAppendedTwice(existing: seq<Link>, incoming: seq<Link>, i: nat, j: nat)
    requires i < j < |incoming|
    requires Eligible(incoming[i], Hrefs(existing)) && Eligible(incoming[j], Hrefs(existing))
    ensures var m := MergedLinks(existing, incoming);
            exists p, q :: |existing| <= p < q < |m| && m[p] == incoming[i] && m[q] == incoming[j]
  {
    var n := NewLinks(Hrefs(existing), incoming);
    var p, q := BothTaken(Hrefs(existing), incoming, i, j);
    assert MergedLinks(existing, incoming)[|existing| + p] == n[p];
    assert MergedLinks(existing, incoming)[|existing| + q] == n[q];
  }

  /** Two eligible incoming links are both taken, in incoming order. */
  lemma BothTaken(current: seq<Json>, incoming: seq<Link>, i: nat, j: nat) returns (p: nat, q: nat)
    requires i < j < |incoming|
    requires Eligible(incoming[i], current) && Eligible(incoming[j], current)
    ensures p < q < |NewLinks(current, incoming)|
    ensures NewLinks(current, incoming)[p] == incoming[i] && NewLinks(current, incoming)[q] == incoming[j]
  {
    var front, back := incoming[..j], incoming[j..];
    assert incoming == front + back;
    NewLinksInIncomingOrder(current, front, back);
    var nf, nb := NewLinks(current, front), NewLinks(current, back);
    assert incoming[i] in nf by {
      NewLinksComplete(current, front);
      assert front[i] == incoming[i];
    }
    assert incoming[j] in nb by {
      NewLinksComplete(current, back);
      assert back[0] == incoming[j];
    }
    var p' :| 0 <= p' < |nf| && nf[p'] == incoming[i];
    var q' :| 0 <= q' < |nb| && nb[q'] == incoming[j];
    assert NewLinks(current, incoming) == nf + nb;
    p, q := p', |nf| + q';
  }

}
