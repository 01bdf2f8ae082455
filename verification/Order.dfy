/** Identifiers in dictionary order, and sorting them. */
module Order {
  /** `a` comes strictly before `b`, character by character; a prefix comes first. */
  predicate Before(a: string, b: string) {
    if a == [] then b != []
    else if b == [] then false
    else if a[0] == b[0] then Before(a[1..], b[1..])
    else a[0] < b[0]
  }

  lemma {:induction false} BeforeIsTotal(a: string, b: string)
    ensures a == b || Before(a, b) || Before(b, a)
  {
    if a != [] && b != [] && a[0] == b[0] {
      BeforeIsTotal(a[1..], b[1..]);
      if a[1..] == b[1..] {
        assert a == [a[0]] + a[1..] && b == [b[0]] + b[1..];
      }
    }
  }

  lemma {:induction false} BeforeIsStrict(a: string, b: string)
    requires Before(a, b)
    ensures !Before(b, a) && a != b
  {
    if a != [] && a[0] == b[0] {
      BeforeIsStrict(a[1..], b[1..]);
    }
  }

  lemma {:induction false} BeforeIsTransitive(a: string, b: string, c: string)
    requires Before(a, b) && Before(b, c)
    ensures Before(a, c)
  {
    if a != [] && b != [] && c != [] && a[0] == b[0] == c[0] {
      BeforeIsTransitive(a[1..], b[1..], c[1..]);
    }
  }

  /** The two agree up to `k`, where the first of them ends or has the lesser character. */
  predicate LesserAt(a: string, b: string, k: nat) {
    k <= |a| && k < |b| && a[..k] == b[..k] && (k == |a| || a[k] < b[k])
  }

  lemma BeforeIsDictionaryOrder(a: string, b: string)
    ensures Before(a, b) <==> exists k: nat :: LesserAt(a, b, k)
  {
    if Before(a, b) {
      var k := FirstDifference(a, b);
    } else if k: nat :| LesserAt(a, b, k) {
      LesserComesFirst(a, b, k);
    }
  }

  lemma {:induction false} FirstDifference(a: string, b: string) returns (k: nat)
    requires Before(a, b)
    ensures LesserAt(a, b, k)
  {
    k := 0;
    if a != [] && a[0] == b[0] {
      k := FirstDifference(a[1..], b[1..]);
      assert a[..k + 1] == [a[0]] + a[1..][..k] && b[..k + 1] == [b[0]] + b[1..][..k];
      k := k + 1;
    }
  }

  lemma {:induction false} LesserComesFirst(a: string, b: string, k: nat)
    requires LesserAt(a, b, k)
    ensures Before(a, b)
  {
    if k > 0 {
      assert a[..k][0] == a[0] && b[..k][0] == b[0];
      assert a[1..][..k - 1] == a[..k][1..] && b[1..][..k - 1] == b[..k][1..];
      LesserComesFirst(a[1..], b[1..], k - 1);
    }
  }

  predicate Sorted(ids: seq<string>) {
    forall i, j :: 0 <= i < j < |ids| ==> Before(ids[i], ids[j])
  }

  predicate Distinct(ids: seq<string>) {
    forall i, j :: 0 <= i < j < |ids| ==> ids[i] != ids[j]
  }

  function Insert(id: string, ids: seq<string>): seq<string> {
    if ids == [] then [id]
    else if Before(id, ids[0]) then [id] + ids
    else [ids[0]] + Insert(id, ids[1..])
  }

  function Sort(ids: seq<string>): seq<string> {
    if ids == [] then [] else Insert(ids[0], Sort(ids[1..]))
  }

  lemma {:induction false} InsertKeepsSorted(id: string, ids: seq<string>)
    requires Sorted(ids) && id !in ids
    ensures Sorted(Insert(id, ids))
    ensures forall x :: x in Insert(id, ids) <==> x == id || x in ids
    ensures |Insert(id, ids)| == |ids| + 1
  {
    if ids != [] {
      assert ids == [ids[0]] + ids[1..];
      if Before(id, ids[0]) {
        forall j | 0 <= j < |ids| ensures Before(id, ids[j]) {
          if j > 0 { BeforeIsTransitive(id, ids[0], ids[j]); }
        }
      } else {
        InsertKeepsSorted(id, ids[1..]);
        BeforeIsTotal(id, ids[0]);
        var rest := Insert(id, ids[1..]);
        forall j | 0 <= j < |rest| ensures Before(ids[0], rest[j]) {
          assert rest[j] in rest;
          if rest[j] != id {
            var k :| 0 <= k < |ids[1..]| && ids[1..][k] == rest[j];
            assert ids[k + 1] == rest[j];
          }
        }
      }
    }
  }

  lemma {:induction false} SortSorts(ids: seq<string>)
    requires Distinct(ids)
    ensures Sorted(Sort(ids))
    ensures forall x :: x in Sort(ids) <==> x in ids
    ensures |Sort(ids)| == |ids|
  {
    if ids != [] {
      assert ids == [ids[0]] + ids[1..];
      SortSorts(ids[1..]);
      InsertKeepsSorted(ids[0], Sort(ids[1..]));
    }
  }

  /** Two sorted lists of the same identifiers are the same list. */
  lemma {:induction false} SortedIsUnique(a: seq<string>, b: seq<string>)
    requires Sorted(a) && Sorted(b)
    requires forall x :: x in a <==> x in b
    ensures a == b
  {
    if a == [] || b == [] {
      NoMembers(a);
      NoMembers(b);
    } else {
      SameFirst(a, b);
      forall x ensures x in a[1..] <==> x in b[1..] {
        InRest(a, x);
        InRest(b, x);
      }
      SortedIsUnique(a[1..], b[1..]);
      assert a == [a[0]] + a[1..] && b == [b[0]] + b[1..];
    }
  }

  lemma SameFirst(a: seq<string>, b: seq<string>)
    requires Sorted(a) && Sorted(b) && a != [] && b != []
    requires forall x :: x in a <==> x in b
    ensures a[0] == b[0]
  {
    assert a[0] in a && b[0] in b;
    var i :| 0 <= i < |b| && b[i] == a[0];
    var j :| 0 <= j < |a| && a[j] == b[0];
    if i > 0 && j > 0 {
      BeforeIsStrict(b[0], b[i]);
    }
  }

  lemma NoMembers(a: seq<string>)
    ensures a == [] <==> forall x :: x !in a
  {
    if a != [] {
      assert a[0] in a;
    }
  }

  lemma InRest(a: seq<string>, x: string)
    requires Sorted(a) && a != []
    ensures x in a[1..] <==> x in a && x != a[0]
  {
    assert a == [a[0]] + a[1..];
    if x in a[1..] {
      var k :| 0 <= k < |a[1..]| && a[1..][k] == x;
      BeforeIsStrict(a[0], a[k + 1]);
    }
  }

  function Members(ids: seq<string>): set<string> {
    set id | id in ids
  }

  lemma {:induction false} DistinctMembers(ids: seq<string>)
    requires Distinct(ids)
    ensures |Members(ids)| == |ids|
  {
    if ids != [] {
      var n := |ids| - 1;
      DistinctMembers(ids[..n]);
      assert ids == ids[..n] + [ids[n]];
      assert Members(ids) == Members(ids[..n]) + {ids[n]};
    }
  }

  lemma SortedIsDistinct(ids: seq<string>)
    requires Sorted(ids)
    ensures Distinct(ids)
  {
    forall i, j | 0 <= i < j < |ids| ensures ids[i] != ids[j] {
      BeforeIsStrict(ids[i], ids[j]);
    }
  }
}
