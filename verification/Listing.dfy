/**
 Reading the artifact catalog page by page. The store may answer anything, and something else
 on every call; the loop still ends, and never passes on a duplicate or a foreign artifact.
 Against a store that pages backwards honestly it returns the whole catalog, in order.
 */
module Listing {
  import opened Common
  import opened Sorting
  import opened Utf16

  datatype Ref = Ref(id: Text, createdAt: Text, sessionKey: Text, rest: Text)

  datatype Page = Page(refs: seq<Ref>, hasMore: bool) | StoreError

  datatype Error = IdentityMismatch | CursorStuck | StoreFailed

  datatype Result = Ok(refs: seq<Ref>) | Err(error: Error)

  /** Answers of the store: the number of the call and the cursor decide the page. */
  type Store = (nat, Option<Text>) -> Page

  /******* The order (created_at, id) *******/

  predicate TextLe(a: Text, b: Text) {
    a == [] || (b != [] && (a[0] < b[0] || (a[0] == b[0] && TextLe(a[1..], b[1..]))))
  }

  predicate RefLe(a: Ref, b: Ref) {
    if a.createdAt == b.createdAt then TextLe(a.id, b.id) else TextLe(a.createdAt, b.createdAt)
  }

  lemma {:induction false} TextLeTotal(a: Text, b: Text)
    ensures TextLe(a, b) || TextLe(b, a)
    ensures TextLe(a, b) && TextLe(b, a) ==> a == b
  {
    if a != [] && b != [] && a[0] == b[0] {
      TextLeTotal(a[1..], b[1..]);
      assert a == [a[0]] + a[1..] && b == [b[0]] + b[1..];
    }
  }

  lemma {:induction false} TextLeTransitive(a: Text, b: Text, c: Text)
    requires TextLe(a, b) && TextLe(b, c)
    ensures TextLe(a, c)
  {
    if a != [] && a[0] == b[0] && b[0] == c[0] {
      TextLeTransitive(a[1..], b[1..], c[1..]);
    }
  }

  lemma RefOrdering()
    ensures Ordering(RefLe)
  {
    forall x, y ensures RefLe(x, y) || RefLe(y, x) {
      TextLeTotal(x.id, y.id);
      TextLeTotal(x.createdAt, y.createdAt);
    }
    forall x, y, z | RefLe(x, y) && RefLe(y, z) ensures RefLe(x, z) {
      RefLeTransitive(x, y, z);
    }
  }

  lemma RefLeTransitive(x: Ref, y: Ref, z: Ref)
    requires RefLe(x, y) && RefLe(y, z)
    ensures RefLe(x, z)
  {
    if x.createdAt == y.createdAt == z.createdAt {
      TextLeTransitive(x.id, y.id, z.id);
    } else if x.createdAt != y.createdAt && y.createdAt != z.createdAt {
      TextLeTransitive(x.createdAt, y.createdAt, z.createdAt);
      TextLeTotal(x.createdAt, y.createdAt);
    }
  }

  /******* Identity *******/

  ghost predicate DistinctIds(refs: seq<Ref>) {
    forall i, j :: 0 <= i < j < |refs| ==> refs[i].id != refs[j].id
  }

  function IdsOf(refs: seq<Ref>): set<Text> {
    set i | 0 <= i < |refs| :: refs[i].id
  }

  predicate Owned(refs: seq<Ref>, sessionKey: Text) {
    forall i :: 0 <= i < |refs| ==> refs[i].sessionKey == sessionKey
  }

  lemma DistinctIdsAreStrict(refs: seq<Ref>)
    requires DistinctIds(refs)
    ensures Strict(refs, RefLe)
  {
    forall x, y | x in refs && y in refs && RefLe(x, y) && RefLe(y, x) ensures x == y {
      TextLeTotal(x.id, y.id);
      TextLeTotal(x.createdAt, y.createdAt);
      var i :| 0 <= i < |refs| && refs[i] == x;
      var j :| 0 <= j < |refs| && refs[j] == y;
      assert i == j;
    }
  }

  lemma {:induction false} InsertKeepsDistinct(x: Ref, s: seq<Ref>)
    requires DistinctIds(s) && forall i :: 0 <= i < |s| ==> s[i].id != x.id
    ensures DistinctIds(Insert(x, s, RefLe))
  {
    if !(s == [] || RefLe(x, s[0])) {
      var t := Insert(x, s[1..], RefLe);
      InsertKeepsDistinct(x, s[1..]);
      InsertKeeps(x, s[1..], RefLe);
      SameElements(t, [x] + s[1..]);
      forall j | 0 <= j < |t| ensures t[j].id != s[0].id {
        assert t[j] in [x] + s[1..];
      }
    }
  }

  lemma {:induction false} SortKeepsDistinct(refs: seq<Ref>)
    requires DistinctIds(refs)
    ensures DistinctIds(Sorted(refs, RefLe))
  {
    if refs != [] {
      var t := Sorted(refs[1..], RefLe);
      SortKeepsDistinct(refs[1..]);
      SortedKeeps(refs[1..], RefLe);
      SameElements(t, refs[1..]);
      forall i | 0 <= i < |t| ensures t[i].id != refs[0].id {
        assert t[i] in refs[1..];
      }
      InsertKeepsDistinct(refs[0], t);
    }
  }

  /******* The loop *******/

  /** Every id the store ever answers with. */
  ghost predicate Confined(store: Store, universe: set<Text>) {
    forall n, b :: store(n, b).Page? ==> IdsOf(store(n, b).refs) <= universe
  }

  /** Adds one page, or says that it repeats an id or belongs to another session. */
  method AddPage(page: seq<Ref>, sessionKey: Text, seen: set<Text>, result: seq<Ref>)
    returns (ok: bool, seen': set<Text>, result': seq<Ref>)
    requires DistinctIds(result) && Owned(result, sessionKey) && seen == IdsOf(result)
    ensures ok <==> Owned(page, sessionKey) && DistinctIds(page) && IdsOf(page) !! seen
    ensures ok ==> result' == result + page && seen' == IdsOf(result') && seen' == seen + IdsOf(page)
    ensures ok ==> DistinctIds(result') && Owned(result', sessionKey)
  {
    seen', result' := seen, result;
    for i := 0 to |page|
      invariant result' == result + page[..i] && seen' == IdsOf(result')
      invariant DistinctIds(result') && Owned(result', sessionKey)
    {
      var ref := page[i];
      if ref.id in seen' || ref.sessionKey != sessionKey {
        ok := false;
        BadPage(page, i, sessionKey, result, result');
        return;
      }
      IdsOfMore(result', ref);
      seen' := seen' + {ref.id};
      result' := result' + [ref];
      assert page[..i + 1] == page[..i] + [ref];
    }
    assert page[..|page|] == page;
    ok := true;
    GoodPage(page, sessionKey, result);
  }

  lemma IdsOfMore(refs: seq<Ref>, ref: Ref)
    ensures IdsOf(refs + [ref]) == IdsOf(refs) + {ref.id}
  {
    assert (refs + [ref])[|refs|] == ref;
    forall i | 0 <= i < |refs| ensures refs[i].id in IdsOf(refs + [ref]) {
      assert (refs + [ref])[i] == refs[i];
    }
  }

  lemma BadPage(page: seq<Ref>, i: nat, sessionKey: Text, result: seq<Ref>, sofar: seq<Ref>)
    requires i < |page| && sofar == result + page[..i]
    requires page[i].id in IdsOf(sofar) || page[i].sessionKey != sessionKey
    ensures !(Owned(page, sessionKey) && DistinctIds(page) && IdsOf(page) !! IdsOf(result))
  {
    if page[i].sessionKey == sessionKey {
      var k :| 0 <= k < |sofar| && sofar[k].id == page[i].id;
      if k < |result| {
        assert result[k].id in IdsOf(result) && page[i].id in IdsOf(page);
      } else {
        assert page[k - |result|].id == page[i].id;
      }
    }
  }

  lemma GoodPage(page: seq<Ref>, sessionKey: Text, result: seq<Ref>)
    requires DistinctIds(result + page) && Owned(result + page, sessionKey)
    ensures Owned(page, sessionKey) && DistinctIds(page) && IdsOf(page) !! IdsOf(result)
    ensures IdsOf(result + page) == IdsOf(result) + IdsOf(page)
  {
    var all := result + page;
    assert forall i :: 0 <= i < |page| ==> page[i] == all[|result| + i];
    assert forall i :: 0 <= i < |result| ==> result[i] == all[i];
    forall x | x in IdsOf(page) ensures x !in IdsOf(result) && x in IdsOf(all) {
      var i :| 0 <= i < |page| && page[i].id == x;
      assert all[|result| + i].id == x;
    }
    forall x | x in IdsOf(result) ensures x in IdsOf(all) {
      var i :| 0 <= i < |result| && result[i].id == x;
      assert all[i].id == x;
    }
  }

  /** A store that pages a fixed catalog backwards, `limit` refs a page. */
  function HonestPage(catalog: seq<Ref>, limit: int, before: Option<Text>): Page {
    if limit < 1 then StoreError
    else
      var end := if before.None? then Some(|catalog|) else Position(catalog, before.value);
      if end.None? then StoreError
      else
        var from := if end.value <= limit then 0 else end.value - limit;
        Page(catalog[from..end.value], from > 0)
  }

  function Position(catalog: seq<Ref>, id: Text): (i: Option<nat>)
    ensures i.Some? ==> i.value < |catalog| && catalog[i.value].id == id
    ensures i.None? ==> forall j :: 0 <= j < |catalog| ==> catalog[j].id != id
  {
    if catalog == [] then None
    else if catalog[0].id == id then Some(0)
    else
      var i := Position(catalog[1..], id);
      assert forall j :: 0 < j < |catalog| ==> catalog[1..][j - 1] == catalog[j];
      if i.None? then None else Some(i.value + 1)
  }

  ghost predicate Catalog(catalog: seq<Ref>) {
    DistinctIds(catalog) && Ascending(catalog, RefLe)
  }

  ghost predicate Honest(store: Store, catalog: seq<Ref>, limit: int) {
    Catalog(catalog) && forall n, b :: store(n, b) == HonestPage(catalog, limit, b)
  }

  /** Where an honest read has got to: everything from `cut` on is in. */
  ghost predicate ReadFrom(catalog: seq<Ref>, cut: nat, before: Option<Text>, result: seq<Ref>) {
    && cut <= |catalog| && multiset(result) == multiset(catalog[cut..])
    && (if before.None? then cut == |catalog| && result == [] else cut < |catalog| && before.value == catalog[cut].id)
  }

  lemma PositionOf(catalog: seq<Ref>, cut: nat)
    requires DistinctIds(catalog) && cut < |catalog|
    ensures Position(catalog, catalog[cut].id) == Some(cut)
  {
    var i := Position(catalog, catalog[cut].id);
    assert i.Some?;
    assert !(i.value < cut) && !(cut < i.value);
  }

  lemma PageIsNew(catalog: seq<Ref>, from: nat, cut: nat, result: seq<Ref>)
    requires DistinctIds(catalog) && from <= cut <= |catalog| && multiset(result) == multiset(catalog[cut..])
    ensures DistinctIds(catalog[from..cut]) && IdsOf(catalog[from..cut]) !! IdsOf(result)
  {
    SameElements(result, catalog[cut..]);
    forall i, j | 0 <= i < cut - from && 0 <= j < |result| ensures catalog[from..cut][i].id != result[j].id {
      assert result[j] in catalog[cut..];
      var k :| 0 <= k < |catalog| - cut && catalog[cut..][k] == result[j];
      assert catalog[from + i].id != catalog[cut + k].id;
    }
  }

  lemma PageExtends(catalog: seq<Ref>, from: nat, cut: nat, result: seq<Ref>)
    requires from <= cut <= |catalog| && multiset(result) == multiset(catalog[cut..])
    ensures multiset(result + catalog[from..cut]) == multiset(catalog[from..])
  {
    assert catalog[from..] == catalog[from..cut] + catalog[cut..];
  }

  /** One honest page extends what is read, and never repeats an id. */
  lemma HonestStep(catalog: seq<Ref>, limit: int, cut: nat, before: Option<Text>, result: seq<Ref>)
    returns (from: nat)
    requires Catalog(catalog) && limit >= 1 && ReadFrom(catalog, cut, before, result)
    ensures from <= cut && HonestPage(catalog, limit, before) == Page(catalog[from..cut], from > 0)
    ensures from > 0 ==> from < cut
    ensures DistinctIds(catalog[from..cut]) && IdsOf(catalog[from..cut]) !! IdsOf(result)
    ensures multiset(result + catalog[from..cut]) == multiset(catalog[from..])
  {
    if before.Some? {
      PositionOf(catalog, cut);
    }
    from := if cut <= limit then 0 else cut - limit;
    PageIsNew(catalog, from, cut, result);
    PageExtends(catalog, from, cut, result);
  }

  method ListedArtifacts(store: Store, sessionKey: Text, ghost universe: set<Text>,
                         ghost catalog: seq<Ref>, ghost limit: int) returns (r: Result)
    requires Confined(store, universe)
    ensures r.Ok? ==> DistinctIds(r.refs) && Owned(r.refs, sessionKey) && Ascending(r.refs, RefLe)
    ensures Honest(store, catalog, limit) && limit >= 1 ==>
      (r.Ok? <==> Owned(catalog, sessionKey)) && (r.Ok? ==> r.refs == catalog)
    ensures Honest(store, catalog, limit) && limit < 1 ==> r == Err(StoreFailed)
    ensures r == Err(CursorStuck) ==> exists n, b :: store(n, b) == Page([], true)
  {
    var result: seq<Ref> := [];
    var seen: set<Text> := {};
    var before: Option<Text> := None;
    var call: nat := 0;
    ghost var honest := Honest(store, catalog, limit) && limit >= 1;
    ghost var cut: nat := |catalog|;
    while true
      invariant DistinctIds(result) && Owned(result, sessionKey) && seen == IdsOf(result) && seen <= universe
      invariant before.Some? ==> before.value in seen
      invariant honest ==> ReadFrom(catalog, cut, before, result)
      invariant limit < 1 && Honest(store, catalog, limit) ==> call == 0 && before == None
      decreases |universe - seen|
    {
      var page := store(call, before);
      if page.StoreError? {
        if honest {
          var _ := HonestStep(catalog, limit, cut, before, result);
        }
        return Err(StoreFailed);
      }
      ghost var from: nat := 0;
      if honest {
        from := HonestStep(catalog, limit, cut, before, result);
      }
      var ok, seen', result' := AddPage(page.refs, sessionKey, seen, result);
      if !ok {
        if honest {
          ForeignPage(catalog, from, cut, sessionKey);
        }
        return Err(IdentityMismatch);
      }
      if !page.hasMore {
        RefOrdering();
        SortedAscends(result', RefLe);
        SortKeepsDistinct(result');
        SortKeepsOwned(result', sessionKey);
        if honest {
          assert catalog[0..] == catalog;
          DistinctIdsAreStrict(result');
          AscendingIsSorted(result', catalog, RefLe);
        }
        return Ok(Sorted(result', RefLe));
      }
      if page.refs == [] || Some(page.refs[0].id) == before {
        assert store(call, before) == Page([], true);
        return Err(CursorStuck);
      }
      Shrinks(universe, seen, seen', page.refs[0].id);
      before := Some(page.refs[0].id);
      seen, result, call := seen', result', call + 1;
      cut := from;
    }
  }

  lemma ForeignPage(catalog: seq<Ref>, from: nat, cut: nat, sessionKey: Text)
    requires from <= cut <= |catalog| && !Owned(catalog[from..cut], sessionKey)
    ensures !Owned(catalog, sessionKey)
  {
  }

  lemma SortKeepsOwned(refs: seq<Ref>, sessionKey: Text)
    requires Owned(refs, sessionKey)
    ensures Owned(Sorted(refs, RefLe), sessionKey)
  {
    SortedKeeps(refs, RefLe);
    SameElements(refs, Sorted(refs, RefLe));
    forall i | 0 <= i < |Sorted(refs, RefLe)| ensures Sorted(refs, RefLe)[i].sessionKey == sessionKey {
      assert Sorted(refs, RefLe)[i] in refs;
    }
  }

  lemma Shrinks(universe: set<Text>, seen: set<Text>, more: set<Text>, id: Text)
    requires seen <= more <= universe && id in more && id !in seen
    ensures |universe - more| < |universe - seen|
  {
    assert universe - seen == (universe - more) + (more - seen);
    assert id in more - seen;
    assert |more - seen| > 0;
  }

  /******* The order and the honest store, spelled out *******/

  /** `a` comes before `b` in the dictionary: at the first difference it has the smaller character. */
  ghost predicate Before(a: Text, b: Text) {
    exists i: nat :: FirstDifference(a, b, i)
  }

  predicate FirstDifference(a: Text, b: Text, i: nat) {
    i <= |a| && i < |b| && a[..i] == b[..i] && (i == |a| || a[i] < b[i])
  }

  lemma {:induction false} TextLeIff(a: Text, b: Text)
    ensures TextLe(a, b) <==> a == b || Before(a, b)
  {
    if a != [] && b != [] && a[0] == b[0] {
      TextLeIff(a[1..], b[1..]);
      assert a == [a[0]] + a[1..] && b == [b[0]] + b[1..];
      if Before(a[1..], b[1..]) {
        var i: nat :| FirstDifference(a[1..], b[1..], i);
        assert a[..i + 1] == [a[0]] + a[1..][..i] && b[..i + 1] == [b[0]] + b[1..][..i];
        assert FirstDifference(a, b, i + 1);
      }
      if Before(a, b) {
        var i: nat :| FirstDifference(a, b, i);
        assert i > 0;
        assert a[1..][..i - 1] == a[..i][1..] && b[1..][..i - 1] == b[..i][1..];
        assert FirstDifference(a[1..], b[1..], i - 1);
      }
    } else {
      FirstCharacters(a, b);
    }
  }

  lemma FirstCharacters(a: Text, b: Text)
    requires a == [] || b == [] || a[0] != b[0]
    ensures Before(a, b) <==> b != [] && (a == [] || a[0] < b[0])
  {
    if b != [] && (a == [] || a[0] < b[0]) {
      assert FirstDifference(a, b, 0);
    }
    if i: nat :| FirstDifference(a, b, i) {
      DifferenceShares(a, b, i);
    }
  }

  lemma DifferenceShares(a: Text, b: Text, i: nat)
    requires FirstDifference(a, b, i)
    ensures i == 0 || (a != [] && b != [] && a[0] == b[0])
  {
    if i > 0 {
      assert a[..i][0] == a[0] && b[..i][0] == b[0];
    }
  }

  /** Artifacts are ordered by creation time, and by id only where those are equal. */
  lemma RefLeIff(a: Ref, b: Ref)
    ensures RefLe(a, b) <==>
      || Before(a.createdAt, b.createdAt)
      || (a.createdAt == b.createdAt && (a.id == b.id || Before(a.id, b.id)))
  {
    TextLeIff(a.createdAt, b.createdAt);
    TextLeIff(a.id, b.id);
    if a.createdAt == b.createdAt {
      NotBeforeItself(a.createdAt);
    }
  }

  lemma NotBeforeItself(a: Text)
    ensures !Before(a, a)
  {
  }

  /** The catalog splits at the cursor into what is newer, the page, and what is older. */
  ghost predicate Splits(catalog: seq<Ref>, limit: int, before: Option<Text>,
                         older: seq<Ref>, page: seq<Ref>, newer: seq<Ref>) {
    && catalog == older + page + newer
    && (if before.None? then newer == [] else newer != [] && newer[0].id == before.value)
    && |page| <= limit && (|page| < limit ==> older == [])
  }

  /** An honest page is the newest `limit` refs before the cursor, and says whether older ones exist. */
  lemma HonestPageIs(catalog: seq<Ref>, limit: int, before: Option<Text>,
                     older: seq<Ref>, page: seq<Ref>, newer: seq<Ref>)
    requires DistinctIds(catalog) && limit >= 1 && Splits(catalog, limit, before, older, page, newer)
    ensures HonestPage(catalog, limit, before) == Page(page, older != [])
  {
    var end := |older| + |page|;
    if before.Some? {
      assert catalog[end] == newer[0];
      PositionOf(catalog, end);
    }
    assert catalog[|older|..end] == page;
  }

  /** It answers with an error exactly for a limit below one or a cursor that names no ref. */
  lemma HonestErrorIff(catalog: seq<Ref>, limit: int, before: Option<Text>)
    ensures HonestPage(catalog, limit, before) == StoreError <==>
      limit < 1 || (before.Some? && forall j :: 0 <= j < |catalog| ==> catalog[j].id != before.value)
  {
  }
}
