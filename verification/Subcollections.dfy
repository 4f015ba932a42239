/** A report's "comments" subcollection as the migration sees it: each document turned into a
    comment or an exception under its own fresh Guid, and the comments that are kept. */
module Subcollections {
  import opened Guards
  import opened Documents
  import Comments

  // ---------------------------------------------------------------- results, position by position

  /** The values of the results that succeeded, in order: what a loop that catches every exception
      keeps of the items it tried. */
  function Kept<T>(rs: seq<Result<T>>): seq<T>
    decreases |rs|
  {
    if rs == [] then []
    else
      var last := |rs| - 1;
      Kept(rs[..last]) + (if rs[last].Ok? then [rs[last].value] else [])
  }

  /** One more result keeps its value when it succeeded and nothing otherwise. */
  lemma KeptSnoc<T>(rs: seq<Result<T>>, r: Result<T>)
    ensures r.Ok? ==> Kept(rs + [r]) == Kept(rs) + [r.value]
    ensures r.Err? ==> Kept(rs + [r]) == Kept(rs)
  {
    assert (rs + [r])[..|rs|] == rs;
    if r.Err? {
      assert Kept(rs) + [] == Kept(rs);
    }
  }

  /** Results are kept independently of each other: a failure in one part stops nothing in the
      other. */
  lemma {:induction false} KeptSplit<T>(a: seq<Result<T>>, b: seq<Result<T>>)
    ensures Kept(a + b) == Kept(a) + Kept(b)
    decreases |b|
  {
    if b == [] {
      assert a + b == a;
    } else {
      var last := |b| - 1;
      assert (a + b)[..|a + b| - 1] == a + b[..last];
      KeptSplit(a, b[..last]);
    }
  }

  /** A value is kept exactly when it is the value of one of the successful results. */
  lemma {:induction false} KeptValues<T>(rs: seq<Result<T>>)
    ensures |Kept(rs)| <= |rs|
    ensures forall v :: v in Kept(rs) <==> Ok(v) in rs
    ensures Kept(rs) == [] <==> forall j :: 0 <= j < |rs| ==> rs[j].Err?
    decreases |rs|
  {
    if rs != [] {
      var last := |rs| - 1;
      KeptValues(rs[..last]);
      assert rs == rs[..last] + [rs[last]];
      assert forall j :: 0 <= j < last ==> rs[..last][j] == rs[j];
    }
  }

  /** Appending to an appended sequence appends to its second part. */
  lemma AppendAssoc<T>(a: seq<T>, b: seq<T>, c: seq<T>)
    ensures (a + b) + c == a + (b + c)
  {
  }

  /** `rs` and `xs` have the same length, and the result at each position j stands in the relation
      `p` to the item at j and the number `from + j`. */
  predicate Pointwise<A, B>(rs: seq<B>, xs: seq<A>, p: (B, A, nat) -> bool, from: nat) {
    |rs| == |xs| && forall j :: 0 <= j < |rs| ==> p(rs[j], xs[j], from + j)
  }

  /** The next item, related to the next number, extends a pointwise prefix by one. */
  lemma PointwiseSnoc<A, B>(rs: seq<B>, xs: seq<A>, i: nat, p: (B, A, nat) -> bool, from: nat, r: B, n: nat)
    requires i == |rs| && i < |xs| && n == from + i
    requires Pointwise(rs, xs[..i], p, from) && p(r, xs[i], n)
    ensures Pointwise(rs + [r], xs[..i + 1], p, from)
  {
    forall j | 0 <= j < i + 1
      ensures p((rs + [r])[j], xs[..i + 1][j], from + j)
    {
      if j < i {
        assert (rs + [r])[j] == rs[j] && xs[..i + 1][j] == xs[..i][j];
      }
    }
  }

  /** The relation at one position, with its number written as `n`. */
  lemma PointwiseAt<A, B>(rs: seq<B>, xs: seq<A>, p: (B, A, nat) -> bool, from: nat, j: nat, n: nat)
    requires Pointwise(rs, xs, p, from) && j < |rs| && n == from + j
    ensures p(rs[j], xs[j], n)
  {
  }

  /** A pointwise relation over `a + b` splits into one over `a` and one over `b` whose numbers
      continue after those of `a`. */
  lemma PointwiseSplit<A, B>(rs: seq<B>, a: seq<A>, b: seq<A>, p: (B, A, nat) -> bool, from: nat)
    requires Pointwise(rs, a + b, p, from)
    ensures Pointwise(rs[..|a|], a, p, from) && Pointwise(rs[|a|..], b, p, from + |a|)
    ensures rs == rs[..|a|] + rs[|a|..]
  {
    forall j | 0 <= j < |a|
      ensures p(rs[..|a|][j], a[j], from + j)
    {
      assert rs[..|a|][j] == rs[j] && a[j] == (a + b)[j];
    }
    forall k | 0 <= k < |b|
      ensures p(rs[|a|..][k], b[k], from + |a| + k)
    {
      var j := |a| + k;
      assert rs[|a|..][k] == rs[j] && b[k] == (a + b)[j] && from + |a| + k == from + j;
    }
  }

  // ---------------------------------------------------------------- comment documents

  /** `r` is what Comment.FromFirestore makes of `doc` under the fresh Guid `id`. */
  predicate CommentBuilt(r: Result<Comments.CommentState>, doc: Document, reportId: Guid, userMap: map<string, Guid>,
                         id: Guid, now: Time) {
    r == Comments.NewComment(doc, reportId, userMap, id, now)
  }

  /** What FromFirestore makes of a comment document of the report `reportId` under a given Guid. */
  function Building(reportId: Guid, userMap: map<string, Guid>, now: Time): (p: (Result<Comments.CommentState>, Document, nat) -> bool)
    ensures forall r, doc, id :: p(r, doc, id) == CommentBuilt(r, doc, reportId, userMap, id, now)
  {
    (r: Result<Comments.CommentState>, doc: Document, id: nat) => CommentBuilt(r, doc, reportId, userMap, id, now)
  }

  /** `rs` holds, position by position, what FromFirestore makes of each document of a report's
      subcollection, the document at position j under the fresh Guid `first + j`. */
  predicate BuiltEach(rs: seq<Result<Comments.CommentState>>, docs: seq<Document>, reportId: Guid,
                      userMap: map<string, Guid>, first: Guid, now: Time) {
    Pointwise(rs, docs, Building(reportId, userMap, now), first)
  }

  /** The results of a subcollection are determined by its documents, the report, the map, the
      first Guid and the clock. */
  lemma BuiltEachUnique(rs: seq<Result<Comments.CommentState>>, rs': seq<Result<Comments.CommentState>>,
                        docs: seq<Document>, reportId: Guid, userMap: map<string, Guid>, first: Guid, now: Time)
    requires BuiltEach(rs, docs, reportId, userMap, first, now) && BuiltEach(rs', docs, reportId, userMap, first, now)
    ensures rs == rs'
  {
    forall j | 0 <= j < |rs|
      ensures rs[j] == rs'[j]
    {
      assert CommentBuilt(rs[j], docs[j], reportId, userMap, first + j, now);
      assert CommentBuilt(rs'[j], docs[j], reportId, userMap, first + j, now);
    }
  }

  /** A comment FromFirestore accepts in a subcollection is a stored row of the report, by a mapped
      author, under the Guid drawn for its document. */
  lemma BuiltAtIsRow(rs: seq<Result<Comments.CommentState>>, docs: seq<Document>, reportId: Guid,
                     userMap: map<string, Guid>, first: Guid, now: Time, j: nat)
    requires BuiltEach(rs, docs, reportId, userMap, first, now) && j < |rs| && rs[j].Ok?
    ensures Comments.Stored(rs[j].value) && rs[j].value.reportId == reportId
            && rs[j].value.authorId in userMap.Values && rs[j].value.id == first + j
  {
    var n := first + j;
    PointwiseAt(rs, docs, Building(reportId, userMap, now), first, j, n);
    assert CommentBuilt(rs[j], docs[j], reportId, userMap, n, now);
  }

  /** Every comment a subcollection adds is in stored form, belongs to the report, has a mapped
      author, and holds one of the Guids drawn for the subcollection; there are at most as many as
      documents. */
  lemma CommentsAreRows(rs: seq<Result<Comments.CommentState>>, docs: seq<Document>, reportId: Guid,
                        userMap: map<string, Guid>, first: Guid, now: Time)
    requires BuiltEach(rs, docs, reportId, userMap, first, now)
    ensures |Kept(rs)| <= |docs|
    ensures forall c :: c in Kept(rs) ==>
              Comments.Stored(c) && c.reportId == reportId && c.authorId in userMap.Values
              && first <= c.id < first + |docs|
  {
    KeptValues(rs);
    forall c | c in Kept(rs)
      ensures Comments.Stored(c) && c.reportId == reportId && c.authorId in userMap.Values
              && first <= c.id < first + |docs|
    {
      var j :| 0 <= j < |rs| && rs[j] == Ok(c);
      BuiltAtIsRow(rs, docs, reportId, userMap, first, now, j);
    }
  }

  /** Comment documents are independent of each other: the results of a subcollection split into
      those of its first part and those the rest would have on its own from the next Guid, and the
      comments kept split the same way, whatever either part rejects. */
  lemma BuiltEachSplit(rs: seq<Result<Comments.CommentState>>, a: seq<Document>, b: seq<Document>, reportId: Guid,
                       userMap: map<string, Guid>, first: Guid, now: Time)
    requires BuiltEach(rs, a + b, reportId, userMap, first, now)
    ensures BuiltEach(rs[..|a|], a, reportId, userMap, first, now)
    ensures BuiltEach(rs[|a|..], b, reportId, userMap, first + |a|, now)
    ensures Kept(rs) == Kept(rs[..|a|]) + Kept(rs[|a|..])
  {
    PointwiseSplit(rs, a, b, Building(reportId, userMap, now), first);
    KeptSplit(rs[..|a|], rs[|a|..]);
  }

  /** A subcollection whose authors are all unmapped adds no comment. */
  lemma UnmappedAuthorsAddNothing(rs: seq<Result<Comments.CommentState>>, docs: seq<Document>, reportId: Guid,
                                  userMap: map<string, Guid>, first: Guid, now: Time)
    requires first != EmptyGuid && reportId != EmptyGuid
    requires BuiltEach(rs, docs, reportId, userMap, first, now)
    requires forall i :: 0 <= i < |docs| ==> Comments.ResolveAuthor(docs[i].data, userMap).None?
    ensures Kept(rs) == []
  {
    forall j | 0 <= j < |rs|
      ensures rs[j].Err?
    {
      assert CommentBuilt(rs[j], docs[j], reportId, userMap, first + j, now);
      Comments.UnresolvedAuthorRejected(docs[j], reportId, userMap, first + j, now);
    }
    KeptValues(rs);
  }
}
