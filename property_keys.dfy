/** The order in which `Object.keys` lists the own string keys of an ordinary
    object (OrdinaryOwnPropertyKeys, section 10.1.11.1 of ECMA-262, 2023 edition):
    first every key that is an array index, in ascending numeric order, then the
    other string keys in the order they were created. */
module PropertyKeys {
  import opened Decimal

  /** An array index: the canonical numeral of an integer i with 0 <= i < 2^32 - 1. */
  predicate IsArrayIndex(s: string) {
    |s| >= 1 && IsDigits(s) && (s[0] == '0' ==> |s| == 1) && DecimalValue(s) < 0xFFFF_FFFF
  }

  /** The numeric value used to order array-index keys. */
  function IndexValue(s: string): int {
    if IsDigits(s) then DecimalValue(s) else -1
  }

  predicate Ascending(s: seq<string>) {
    forall i, j :: 0 <= i < j < |s| ==> IndexValue(s[i]) <= IndexValue(s[j])
  }

  function InsertByIndex(k: string, s: seq<string>): seq<string> {
    if |s| == 0 then [k]
    else if IndexValue(k) <= IndexValue(s[0]) then [k] + s
    else [s[0]] + InsertByIndex(k, s[1..])
  }

  /** Insertion sort by numeric value. */
  function SortByIndex(s: seq<string>): seq<string> {
    if |s| == 0 then [] else InsertByIndex(s[0], SortByIndex(s[1..]))
  }

  lemma AscendingTail(s: seq<string>)
    requires Ascending(s) && |s| > 0
    ensures Ascending(s[1..])
  {
    forall i, j | 0 <= i < j < |s[1..]| ensures IndexValue(s[1..][i]) <= IndexValue(s[1..][j]) {
      assert s[1..][i] == s[i + 1] && s[1..][j] == s[j + 1];
    }
  }

  lemma AscendingCons(x: string, s: seq<string>)
    requires Ascending(s)
    requires forall y :: y in s ==> IndexValue(x) <= IndexValue(y)
    ensures Ascending([x] + s)
  {
    var r := [x] + s;
    forall i, j | 0 <= i < j < |r| ensures IndexValue(r[i]) <= IndexValue(r[j]) {
      assert r[j] == s[j - 1];
      if i > 0 { assert r[i] == s[i - 1]; } else { assert r[j] in s; }
    }
  }

  lemma {:induction false} InsertByIndexMultiset(k: string, s: seq<string>)
    ensures multiset(InsertByIndex(k, s)) == multiset(s) + multiset{k}
  {
    if |s| > 0 && IndexValue(k) > IndexValue(s[0]) {
      InsertByIndexMultiset(k, s[1..]);
    }
    if |s| > 0 {
      assert s == [s[0]] + s[1..];
    }
  }

  lemma {:induction false} InsertByIndexAscending(k: string, s: seq<string>)
    requires Ascending(s)
    ensures Ascending(InsertByIndex(k, s))
  {
    if |s| == 0 {
    } else if IndexValue(k) <= IndexValue(s[0]) {
      forall y | y in s ensures IndexValue(k) <= IndexValue(y) {
        var m :| 0 <= m < |s| && s[m] == y;
        if m > 0 { assert IndexValue(s[0]) <= IndexValue(s[m]); }
      }
      AscendingCons(k, s);
    } else {
      var t := s[1..];
      AscendingTail(s);
      InsertByIndexAscending(k, t);
      InsertByIndexMultiset(k, t);
      var u := InsertByIndex(k, t);
      forall x | x in u ensures IndexValue(s[0]) <= IndexValue(x) {
        assert x in multiset(u);
        if x != k {
          assert x in multiset(t);
          var m :| 0 <= m < |t| && t[m] == x;
          assert s[m + 1] == x;
        }
      }
      AscendingCons(s[0], u);
    }
  }

  /** Sorting lists the same keys, in ascending numeric order. */
  lemma {:induction false} SortByIndexCorrect(s: seq<string>)
    ensures multiset(SortByIndex(s)) == multiset(s)
    ensures Ascending(SortByIndex(s))
  {
    if |s| > 0 {
      SortByIndexCorrect(s[1..]);
      InsertByIndexMultiset(s[0], SortByIndex(s[1..]));
      InsertByIndexAscending(s[0], SortByIndex(s[1..]));
      assert s == [s[0]] + s[1..];
    }
  }

  /** The keys that are array indices, in creation order. */
  function IndexKeys(created: seq<string>): seq<string> {
    if |created| == 0 then []
    else (if IsArrayIndex(created[0]) then [created[0]] else []) + IndexKeys(created[1..])
  }

  /** The keys that are not array indices, in creation order. */
  function OtherKeys(created: seq<string>): seq<string> {
    if |created| == 0 then []
    else (if IsArrayIndex(created[0]) then [] else [created[0]]) + OtherKeys(created[1..])
  }

  /** `Object.keys` of an object whose string keys were created in the order `created`. */
  function OwnKeys(created: seq<string>): (r: seq<string>)
    ensures |r| == |created|
  {
    SplitKeys(created);
    SortByIndexCorrect(IndexKeys(created));
    assert |SortByIndex(IndexKeys(created))| == |multiset(IndexKeys(created))|;
    assert |multiset(IndexKeys(created))| + |multiset(OtherKeys(created))| == |multiset(created)|;
    SortByIndex(IndexKeys(created)) + OtherKeys(created)
  }

  lemma {:induction false} SplitKeys(created: seq<string>)
    ensures forall x :: x in IndexKeys(created) ==> IsArrayIndex(x)
    ensures multiset(IndexKeys(created)) + multiset(OtherKeys(created)) == multiset(created)
  {
    if |created| > 0 {
      SplitKeys(created[1..]);
      assert created == [created[0]] + created[1..];
    }
  }

  lemma {:induction false} OtherKeysAppend(a: seq<string>, b: seq<string>)
    ensures OtherKeys(a + b) == OtherKeys(a) + OtherKeys(b)
  {
    if |a| > 0 {
      assert (a + b)[1..] == a[1..] + b;
      OtherKeysAppend(a[1..], b);
    } else {
      assert a + b == b;
    }
  }

  lemma {:induction false} OtherKeysOfIndices(s: seq<string>)
    requires forall x :: x in s ==> IsArrayIndex(x)
    ensures OtherKeys(s) == []
  {
    if |s| > 0 {
      assert s[0] in s;
      assert forall x :: x in s[1..] ==> x in s;
      OtherKeysOfIndices(s[1..]);
    }
  }

  lemma {:induction false} OtherKeysIdempotent(created: seq<string>)
    ensures OtherKeys(OtherKeys(created)) == OtherKeys(created)
  {
    if |created| > 0 {
      var head := if IsArrayIndex(created[0]) then [] else [created[0]];
      OtherKeysIdempotent(created[1..]);
      OtherKeysAppend(head, OtherKeys(created[1..]));
      if !IsArrayIndex(created[0]) {
        assert OtherKeys(head) == head by { assert head[1..] == []; }
      }
    }
  }

  /** `Object.keys` lists each created key exactly once. */
  lemma OwnKeysPermutation(created: seq<string>)
    ensures multiset(OwnKeys(created)) == multiset(created)
  {
    SplitKeys(created);
    SortByIndexCorrect(IndexKeys(created));
  }

  lemma SortedIndicesAreIndices(created: seq<string>)
    ensures forall x :: x in SortByIndex(IndexKeys(created)) ==> IsArrayIndex(x)
    ensures Ascending(SortByIndex(IndexKeys(created)))
  {
    SplitKeys(created);
    SortByIndexCorrect(IndexKeys(created));
    forall x | x in SortByIndex(IndexKeys(created)) ensures IsArrayIndex(x) {
      assert x in multiset(SortByIndex(IndexKeys(created)));
    }
  }

  /** Array-index keys come first, in ascending numeric order. */
  lemma OwnKeysIndicesFirst(created: seq<string>)
    ensures forall i, j :: 0 <= i < j < |OwnKeys(created)| && IsArrayIndex(OwnKeys(created)[j]) ==>
      IsArrayIndex(OwnKeys(created)[i]) && IndexValue(OwnKeys(created)[i]) <= IndexValue(OwnKeys(created)[j])
  {
    var a, b := SortByIndex(IndexKeys(created)), OtherKeys(created);
    SortedIndicesAreIndices(created);
    forall i, j | 0 <= i < j < |a + b| && IsArrayIndex((a + b)[j])
      ensures IsArrayIndex((a + b)[i]) && IndexValue((a + b)[i]) <= IndexValue((a + b)[j])
    {
      if j >= |a| {
        assert (a + b)[j] == b[j - |a|];
        OtherKeysNotIndex(created, j - |a|);
      } else {
        assert (a + b)[i] == a[i] && (a + b)[j] == a[j];
        assert a[i] in a;
      }
    }
  }

  /** The keys that are not array indices keep their creation order. */
  lemma OwnKeysOthersInOrder(created: seq<string>)
    ensures OtherKeys(OwnKeys(created)) == OtherKeys(created)
  {
    var a, b := SortByIndex(IndexKeys(created)), OtherKeys(created);
    SortedIndicesAreIndices(created);
    OtherKeysAppend(a, b);
    OtherKeysOfIndices(a);
    OtherKeysIdempotent(created);
  }

  lemma {:induction false} OtherKeysNotIndex(created: seq<string>, k: nat)
    requires k < |OtherKeys(created)|
    ensures !IsArrayIndex(OtherKeys(created)[k])
  {
    if !IsArrayIndex(created[0]) && k == 0 {
    } else if IsArrayIndex(created[0]) {
      OtherKeysNotIndex(created[1..], k);
    } else {
      OtherKeysNotIndex(created[1..], k - 1);
    }
  }

  lemma {:induction false} NoIndexKeys(created: seq<string>)
    requires forall i :: 0 <= i < |created| ==> !IsArrayIndex(created[i])
    ensures IndexKeys(created) == [] && OtherKeys(created) == created
  {
    if |created| > 0 {
      NoIndexKeys(created[1..]);
      assert created == [created[0]] + created[1..];
    }
  }

  /** With no array-index key, `Object.keys` is exactly creation order. */
  lemma OwnKeysInsertionOrder(created: seq<string>)
    requires forall i :: 0 <= i < |created| ==> !IsArrayIndex(created[i])
    ensures OwnKeys(created) == created
  {
    NoIndexKeys(created);
  }
}
