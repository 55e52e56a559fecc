/**
 * A document collection as a repository sees it: the documents by id, and the natural order in
 * which their ids were first saved (the order in which an unsorted query lists them).
 */
module DocumentStore {
  import opened Wrappers
  import opened Sequences

  datatype Collection<D> = Collection(docs: map<string, D>, order: seq<string>)

  /** Every stored id occurs exactly once in the natural order, and nothing else does. */
  ghost predicate Valid<D>(c: Collection<D>)
  {
    && Distinct(c.order)
    && (forall id :: id in c.docs <==> id in c.order)
  }

  function Empty<D>(): (c: Collection<D>)
    ensures Valid(c) && c.docs == map[]
  {
    Collection(map[], [])
  }

  /** `save`: inserts the document under `id`, or replaces the one stored there; a new id joins the end of the natural order. */
  function Save<D>(c: Collection<D>, id: string, d: D): (r: Collection<D>)
    requires Valid(c)
    ensures Valid(r)
    ensures r.docs == c.docs[id := d]
    ensures r.order == if id in c.docs then c.order else c.order + [id]
  {
    if id in c.docs then Collection(c.docs[id := d], c.order)
    else
      assert forall i :: 0 <= i < |c.order| ==> c.order[i] in c.docs;
      Collection(c.docs[id := d], c.order + [id])
  }

  /** `findById` */
  function FindById<D>(c: Collection<D>, id: string): (r: Option<D>)
    ensures r.Some? <==> id in c.docs
    ensures r.Some? ==> r.value == c.docs[id]
  {
    if id in c.docs then Some(c.docs[id]) else None
  }

  /** The documents stored under `ids`, in that order. */
  function Project<D>(docs: map<string, D>, ids: seq<string>): (r: seq<D>)
    requires forall id :: id in ids ==> id in docs
    ensures |r| == |ids| && forall i :: 0 <= i < |ids| ==> r[i] == docs[ids[i]]
  {
    seq(|ids|, i requires 0 <= i < |ids| => docs[ids[i]])
  }

  /** `findAll`: every stored document, once per id, in natural order. */
  function Listing<D(==,!new)>(c: Collection<D>): (r: seq<D>)
    requires Valid(c)
    ensures |r| == |c.docs|
    ensures forall d :: d in r <==> d in c.docs.Values
  {
    var r := Project(c.docs, c.order);
    assert c.docs.Keys == set id | id in c.order;
    DistinctCardinality(c.order);
    forall d | d in c.docs.Values
      ensures d in r
    {
      var id :| id in c.docs && c.docs[id] == d;
      var i :| 0 <= i < |c.order| && c.order[i] == id;
      assert r[i] == d;
    }
    r
  }

  /** A derived query: the stored documents that satisfy `p`, in natural order. */
  function Select<D(==,!new)>(c: Collection<D>, p: D -> bool): (r: seq<D>)
    requires Valid(c)
    ensures forall d :: d in r <==> d in c.docs.Values && p(d)
    ensures SubsequenceOf(r, Listing(c))
  {
    FilterMembership(Listing(c), p);
    FilterIsSubsequence(Listing(c), p);
    Filter(Listing(c), p)
  }

  /** A derived count query, evaluated by the store on its own: it agrees with the length of the matching query. */
  function Count<D(==,!new)>(c: Collection<D>, p: D -> bool): (n: nat)
    requires Valid(c)
    ensures n == |Select(c, p)|
  {
    CountIsFilterLength(Listing(c), p);
    CountWhere(Listing(c), p)
  }
}
