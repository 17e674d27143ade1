/**
 * Product records as the catalogue keeps them, and the sequence operations
 * every component applies to them (Array.prototype.filter keyed on ProductId).
 */
module Records {

  datatype Option<T> = None | Some(value: T)

  /** A value read from a spreadsheet cell or a JSON document. */
  datatype Cell = Text(s: string) | Number(r: real) | Bool(b: bool)

  /**
   * A product record: a plain object from property (column) name to value.
   * Uploaded rows are stored as they are, so a row and a product are one type.
   */
  type Record = map<string, Cell>

  /** The value of `p.ProductId`; `None` stands for `undefined`. */
  type Id = Option<Cell>

  /** A parsed JSON value, as far as the catalogue looks at it. */
  datatype JsonValue = JArray(items: seq<Record>) | JOther

  const PRODUCT_ID := "ProductId"

  function IdOf(p: Record): Id {
    if PRODUCT_ID in p then Some(p[PRODUCT_ID]) else None
  }

  /** The set of ids present in a list (`new Set(list.map(p => p.ProductId))`). */
  function IdsOf(ps: seq<Record>): set<Id> {
    set p | p in ps :: IdOf(p)
  }

  /** No two records of the list carry the same id. */
  predicate DistinctIds(ps: seq<Record>) {
    forall i, j :: 0 <= i < j < |ps| ==> IdOf(ps[i]) != IdOf(ps[j])
  }

  /** `s.filter(keep)`: the elements satisfying `keep`, in their original order. */
  function Filter<T(!new)>(s: seq<T>, keep: T -> bool): (r: seq<T>)
    ensures |r| <= |s|
    ensures forall x :: x in r <==> x in s && keep(x)
  {
    if s == [] then []
    else if keep(s[0]) then [s[0]] + Filter(s[1..], keep)
    else Filter(s[1..], keep)
  }

  /** Filtering distributes over concatenation, so it never reorders what it keeps. */
  lemma {:induction false} FilterAppend<T(!new)>(a: seq<T>, b: seq<T>, keep: T -> bool)
    ensures Filter(a + b, keep) == Filter(a, keep) + Filter(b, keep)
  {
    if a == [] {
      assert a + b == b;
    } else {
      assert (a + b)[0] == a[0];
      assert (a + b)[1..] == a[1..] + b;
      FilterAppend(a[1..], b, keep);
    }
  }

  /** A filter that keeps every element returns its input unchanged. */
  lemma {:induction false} FilterKeepsAll<T(!new)>(s: seq<T>, keep: T -> bool)
    ensures (forall x :: x in s ==> keep(x)) ==> Filter(s, keep) == s
  {
    if s != [] {
      FilterKeepsAll(s[1..], keep);
      if forall x :: x in s ==> keep(x) {
        assert keep(s[0]);
        assert forall x :: x in s[1..] ==> x in s;
        assert s == [s[0]] + s[1..];
      }
    }
  }

  /** A filter that keeps no element returns the empty list. */
  lemma {:induction false} FilterDropsAll<T(!new)>(s: seq<T>, keep: T -> bool)
    ensures (forall x :: x in s ==> !keep(x)) ==> Filter(s, keep) == []
  {
    if s != [] {
      FilterDropsAll(s[1..], keep);
      assert forall x :: x in s[1..] ==> x in s;
    }
  }

  lemma DistinctCons(x: Record, r: seq<Record>)
    ensures DistinctIds([x] + r) <==> IdOf(x) !in IdsOf(r) && DistinctIds(r)
  {
    var s := [x] + r;
    if DistinctIds(s) {
      forall q | q in r ensures IdOf(q) != IdOf(x) {
        var k :| 0 <= k < |r| && r[k] == q;
        assert s[0] == x && s[k + 1] == q;
      }
      forall i, j | 0 <= i < j < |r| ensures IdOf(r[i]) != IdOf(r[j]) {
        assert s[i + 1] == r[i] && s[j + 1] == r[j];
      }
    }
    if IdOf(x) !in IdsOf(r) && DistinctIds(r) {
      forall i, j | 0 <= i < j < |s| ensures IdOf(s[i]) != IdOf(s[j]) {
        if i == 0 {
          assert s[j] == r[j - 1] && s[j] in r;
        } else {
          assert s[i] == r[i - 1] && s[j] == r[j - 1];
        }
      }
    }
  }

  /** Removing records from a list with distinct ids leaves the ids distinct. */
  lemma {:induction false} FilterKeepsDistinct(ps: seq<Record>, keep: Record -> bool)
    requires DistinctIds(ps)
    ensures DistinctIds(Filter(ps, keep))
  {
    if ps != [] {
      assert ps == [ps[0]] + ps[1..];
      DistinctCons(ps[0], ps[1..]);
      FilterKeepsDistinct(ps[1..], keep);
      if keep(ps[0]) {
        var rest := Filter(ps[1..], keep);
        forall q | q in rest ensures IdOf(q) != IdOf(ps[0]) {
          assert q in ps[1..];
          assert IdOf(q) in IdsOf(ps[1..]);
        }
        DistinctCons(ps[0], rest);
      }
    }
  }

  /** Two lists with distinct ids and no id in common concatenate to a list with distinct ids. */
  lemma DistinctAppend(a: seq<Record>, b: seq<Record>)
    requires DistinctIds(a) && DistinctIds(b)
    requires IdsOf(a) !! IdsOf(b)
    ensures DistinctIds(a + b)
  {
    var s := a + b;
    forall i, j | 0 <= i < j < |s| ensures IdOf(s[i]) != IdOf(s[j]) {
      if j < |a| {
        assert s[i] == a[i] && s[j] == a[j];
      } else if i >= |a| {
        assert s[i] == b[i - |a|] && s[j] == b[j - |a|];
      } else {
        assert s[i] == a[i] && s[i] in a;
        assert s[j] == b[j - |a|] && s[j] in b;
        assert IdOf(s[i]) in IdsOf(a) && IdOf(s[j]) in IdsOf(b);
      }
    }
  }

  /** The predicate `p => p.ProductId !== id`. */
  function OtherThan(id: Id): Record -> bool {
    p => IdOf(p) != id
  }

  /**
   * `list.filter(p => p.ProductId !== id)`: the delete-by-id used by the admin
   * panel, the state hook and every storage backend.
   */
  function Without(ps: seq<Record>, id: Id): (r: seq<Record>)
    ensures |r| <= |ps|
    ensures forall p :: p in r <==> p in ps && IdOf(p) != id
    ensures id !in IdsOf(r)
    ensures id !in IdsOf(ps) ==> r == ps
    ensures id in IdsOf(ps) ==> |r| < |ps|
  {
    FilterKeepsAll(ps, OtherThan(id));
    var r := Filter(ps, OtherThan(id));
    assert id in IdsOf(ps) ==> r != ps by {
      if id in IdsOf(ps) {
        var q :| q in ps && IdOf(q) == id;
        assert q !in r;
      }
    }
    FilterShorterUnlessAll(ps, OtherThan(id));
    r
  }

  /** A filter that drops something returns a strictly shorter list. */
  lemma {:induction false} FilterShorterUnlessAll<T(!new)>(s: seq<T>, keep: T -> bool)
    ensures Filter(s, keep) == s || |Filter(s, keep)| < |s|
  {
    if s != [] {
      FilterShorterUnlessAll(s[1..], keep);
      assert s == [s[0]] + s[1..];
    }
  }

  /** Deleting from a concatenation deletes from each part: order is preserved. */
  lemma WithoutAppend(a: seq<Record>, b: seq<Record>, id: Id)
    ensures Without(a + b, id) == Without(a, id) + Without(b, id)
  {
    FilterAppend(a, b, OtherThan(id));
  }

  /** Deleting the same id twice is deleting it once. */
  lemma WithoutIdempotent(ps: seq<Record>, id: Id)
    ensures Without(Without(ps, id), id) == Without(ps, id)
  {
  }

  /** Deleting from a list with distinct ids keeps the ids distinct. */
  lemma WithoutKeepsDistinct(ps: seq<Record>, id: Id)
    requires DistinctIds(ps)
    ensures DistinctIds(Without(ps, id))
  {
    FilterKeepsDistinct(ps, OtherThan(id));
  }
}
