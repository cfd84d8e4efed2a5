/** Grouping of the banner descriptors by language, as both variants of
    `Preview._appendLinks` do it: a forEach loop that fills the object literal
    `groups` with one array per language, followed by `Object.keys(groups)`. */
module Grouping {
  import opened Decimal
  import opened PropertyKeys

  /** One entry of the manifest, after `_getData` keeps only these four fields. */
  datatype Descriptor = Descriptor(name: string, width: int, height: int, language: string)

  /** The names an empty object literal inherits from Object.prototype (including
      the Annex B accessors). For such a language `groups[language]` is already
      truthy, so `_appendLinks` skips creating the array and `.push` throws a TypeError. */
  const PrototypeKeys: set<string> := {
    "constructor", "hasOwnProperty", "isPrototypeOf", "propertyIsEnumerable",
    "toLocaleString", "toString", "valueOf", "__proto__",
    "__defineGetter__", "__defineSetter__", "__lookupGetter__", "__lookupSetter__"
  }

  /** Every inherited name is at least seven characters long, so no shorter language
      (such as a two-letter code) can make the grouping loop throw. */
  lemma ShortKeysAreOwn(k: string)
    requires |k| < 7
    ensures k !in PrototypeKeys
  {
  }

  /** The grouping loop runs to the end: no language is an inherited name. */
  predicate GroupsCleanly(data: seq<Descriptor>) {
    forall i :: 0 <= i < |data| ==> data[i].language !in PrototypeKeys
  }

  /** Every key is listed at most once. */
  ghost predicate Distinct(ks: seq<string>) {
    forall x :: multiset(ks)[x] <= 1
  }

  /** The languages of `data` in order of first occurrence. */
  function FirstSeen(data: seq<Descriptor>): seq<string> {
    if |data| == 0 then []
    else
      var ks := FirstSeen(data[..|data| - 1]);
      if data[|data| - 1].language in ks then ks else ks + [data[|data| - 1].language]
  }

  /** The descriptors of language `k`, in input order. */
  function Members(data: seq<Descriptor>, k: string): seq<Descriptor> {
    if |data| == 0 then []
    else
      var last := data[|data| - 1];
      Members(data[..|data| - 1], k) + (if last.language == k then [last] else [])
  }

  /** A group holds descriptors of its own language only, each taken from the input. */
  lemma {:induction false} MembersOf(data: seq<Descriptor>, k: string)
    ensures forall x :: x in Members(data, k) ==> x in data && x.language == k
  {
    if |data| > 0 {
      var p := data[..|data| - 1];
      MembersOf(p, k);
      assert forall x :: x in p ==> x in data;
    }
  }

  /** The contents of the `groups` object once the loop has run over all of `data`. */
  function GroupMap(data: seq<Descriptor>): map<string, seq<Descriptor>> {
    map k | k in FirstSeen(data) :: Members(data, k)
  }

  /** The groups of `ks`, one after the other. */
  function Flatten(ks: seq<string>, data: seq<Descriptor>): seq<Descriptor> {
    if |ks| == 0 then [] else Flatten(ks[..|ks| - 1], data) + Members(data, ks[|ks| - 1])
  }

  /** The order in which the nav lists the descriptors: group by group, groups in
      `Object.keys` order. */
  function GroupedOrder(data: seq<Descriptor>): (r: seq<Descriptor>)
    ensures |r| == |data|
  {
    OrderedKeys(data);
    DistinctNoRepeats(OwnKeys(FirstSeen(data)));
    FirstSeenLanguages(data);
    FlattenPermutation(OwnKeys(FirstSeen(data)), data);
    assert |multiset(Flatten(OwnKeys(FirstSeen(data)), data))| == |multiset(data)|;
    Flatten(OwnKeys(FirstSeen(data)), data)
  }

  /** The `data.forEach` loop of `_appendLinks` (lines 33-37 of both variants).
      `keys` records the creation order of the properties of `groups`. When a
      language is an inherited name the loop stops with a TypeError (`ok` false). */
  method GroupByLanguage(data: seq<Descriptor>)
      returns (ok: bool, keys: seq<string>, groups: map<string, seq<Descriptor>>)
    ensures ok <==> GroupsCleanly(data)
    ensures ok ==> keys == FirstSeen(data) && groups == GroupMap(data)
  {
    keys, groups := [], map[];
    var i := 0;
    while i < |data|
      invariant 0 <= i <= |data|
      invariant GroupsCleanly(data[..i])
      invariant keys == FirstSeen(data[..i])
      invariant groups == GroupMap(data[..i])
    {
      var lang := data[i].language;
      GroupStep(data, i);
      if lang in PrototypeKeys {
        return false, keys, groups;
      }
      GroupMapStep(data, i);
      if lang !in groups {
        keys := keys + [lang];
        groups := groups[lang := []];
      }
      groups := groups[lang := groups[lang] + [data[i]]];
      i := i + 1;
    }
    assert data[..i] == data;
    ok := true;
  }

  /** One more descriptor appends it to its language's group, creating the group first
      when the language is new. */
  lemma GroupMapStep(data: seq<Descriptor>, i: nat)
    requires i < |data|
    ensures var g, lang := GroupMap(data[..i]), data[i].language;
      GroupMap(data[..i + 1]) ==
        if lang in g then g[lang := g[lang] + [data[i]]] else g[lang := [data[i]]]
  {
    var g, lang, x := GroupMap(data[..i]), data[i].language, data[i];
    var seen, g' := FirstSeen(data[..i]), GroupMap(data[..i + 1]);
    GroupStep(data, i);
    MembersStep(data, i);
    if lang in seen {
      assert FirstSeen(data[..i + 1]) == seen;
      forall k | k in seen ensures g'[k] == g[lang := g[lang] + [x]][k] {
      }
    } else {
      MembersOfUnseen(data[..i], lang);
      assert FirstSeen(data[..i + 1]) == seen + [lang];
      assert g'.Keys == g.Keys + {lang};
      forall k | k in g'.Keys ensures g'[k] == g[lang := [x]][k] {
      }
    }
  }


  /** How one more descriptor changes the keys and the groups. */
  lemma GroupStep(data: seq<Descriptor>, i: nat)
    requires i < |data|
    ensures GroupsCleanly(data[..i + 1]) <==> GroupsCleanly(data[..i]) && data[i].language !in PrototypeKeys
    ensures FirstSeen(data[..i + 1]) ==
      if data[i].language in FirstSeen(data[..i]) then FirstSeen(data[..i])
      else FirstSeen(data[..i]) + [data[i].language]
  {
    var seen := data[..i + 1];
    assert seen[..i] == data[..i] && seen[i] == data[i];
    assert forall j :: 0 <= j < i ==> seen[j] == data[..i][j];
  }

  lemma MembersStep(data: seq<Descriptor>, i: nat)
    requires i < |data|
    ensures forall k ::
      Members(data[..i + 1], k) == Members(data[..i], k) + (if data[i].language == k then [data[i]] else [])
  {
    var seen := data[..i + 1];
    assert seen[..i] == data[..i] && seen[i] == data[i];
  }

  /** A language is a group key exactly when some descriptor carries it. */
  lemma {:induction false} FirstSeenLanguages(data: seq<Descriptor>)
    ensures forall k :: k in FirstSeen(data) <==> exists j :: 0 <= j < |data| && data[j].language == k
  {
    if |data| > 0 {
      var p := data[..|data| - 1];
      FirstSeenLanguages(p);
      forall k ensures k in FirstSeen(data) <==> exists j :: 0 <= j < |data| && data[j].language == k {
        if k in FirstSeen(data) && k != data[|data| - 1].language {
          assert k in FirstSeen(p);
          var j :| 0 <= j < |p| && p[j].language == k;
          assert data[j] == p[j];
        }
        if exists j :: 0 <= j < |data| && data[j].language == k {
          var j :| 0 <= j < |data| && data[j].language == k;
          if j < |p| { assert p[j] == data[j]; }
        }
      }
    }
  }

  lemma MembersOfUnseen(data: seq<Descriptor>, k: string)
    requires k !in FirstSeen(data)
    ensures Members(data, k) == []
  {
    FirstSeenLanguages(data);
    MembersAbsent(data, k);
  }

  /** Each language gets one group. */
  lemma {:induction false} FirstSeenDistinct(data: seq<Descriptor>)
    ensures Distinct(FirstSeen(data))
  {
    if |data| > 0 {
      FirstSeenDistinct(data[..|data| - 1]);
    }
  }

  /** The position of the first descriptor of language `k`. */
  function FirstIndex(data: seq<Descriptor>, k: string): (j: nat)
    requires k in FirstSeen(data)
    ensures j < |data| && data[j].language == k
    ensures forall j' :: 0 <= j' < j ==> data[j'].language != k
  {
    var p := data[..|data| - 1];
    FirstSeenLanguages(p);
    if k in FirstSeen(p) then
      var j := FirstIndex(p, k);
      assert forall j' :: 0 <= j' < j ==> data[j'] == p[j'];
      j
    else
      assert forall j' :: 0 <= j' < |p| ==> data[j'] == p[j'];
      |data| - 1
  }

  /** Groups come in the order in which their languages first occur. */
  lemma {:induction false} FirstSeenOrder(data: seq<Descriptor>)
    ensures forall a, b :: 0 <= a < b < |FirstSeen(data)| ==>
      FirstIndex(data, FirstSeen(data)[a]) < FirstIndex(data, FirstSeen(data)[b])
  {
    if |data| > 0 {
      var p := data[..|data| - 1];
      var ks, ps := FirstSeen(data), FirstSeen(p);
      FirstSeenOrder(p);
      forall a, b | 0 <= a < b < |ks| ensures FirstIndex(data, ks[a]) < FirstIndex(data, ks[b]) {
        assert ks[a] == ps[a] && ks[a] in ps;
        assert FirstIndex(data, ks[a]) == FirstIndex(p, ps[a]);
        if b < |ps| {
          assert ks[b] == ps[b];
          assert FirstIndex(data, ks[b]) == FirstIndex(p, ps[b]);
        }
      }
    }
  }

  lemma {:induction false} DistinctPrefix(ks: seq<string>)
    requires Distinct(ks) && |ks| > 0
    ensures Distinct(ks[..|ks| - 1]) && ks[|ks| - 1] !in ks[..|ks| - 1]
  {
    var init, last := ks[..|ks| - 1], ks[|ks| - 1];
    assert ks == init + [last];
    assert multiset(ks) == multiset(init) + multiset{last};
    forall x ensures multiset(init)[x] <= 1 {
      assert multiset(init)[x] <= multiset(ks)[x];
    }
    assert multiset(init)[last] + 1 == multiset(ks)[last];
  }

  /** Structural form of `Distinct`, the one the induction over keys uses: the last key
      is not among the earlier ones, and so on down. */
  predicate NoRepeats(ks: seq<string>) {
    |ks| == 0 || (NoRepeats(ks[..|ks| - 1]) && ks[|ks| - 1] !in ks[..|ks| - 1])
  }

  lemma {:induction false} DistinctNoRepeats(ks: seq<string>)
    requires Distinct(ks)
    ensures NoRepeats(ks)
  {
    if |ks| > 0 {
      DistinctPrefix(ks);
      DistinctNoRepeats(ks[..|ks| - 1]);
    }
  }

  lemma InSnoc(ks: seq<string>, x: string)
    requires |ks| > 0
    ensures x in ks <==> x in ks[..|ks| - 1] || x == ks[|ks| - 1]
  {
    assert ks == ks[..|ks| - 1] + [ks[|ks| - 1]];
  }

  lemma {:induction false} FlattenEmpty(ks: seq<string>)
    ensures Flatten(ks, []) == []
  {
    if |ks| > 0 { FlattenEmpty(ks[..|ks| - 1]); }
  }

  /** Adding one descriptor adds it once to the flattened groups, if its language is a key. */
  lemma {:induction false} FlattenSnoc(ks: seq<string>, data: seq<Descriptor>)
    requires NoRepeats(ks) && |data| > 0
    ensures multiset(Flatten(ks, data)) ==
      multiset(Flatten(ks, data[..|data| - 1])) +
      (if data[|data| - 1].language in ks then multiset{data[|data| - 1]} else multiset{})
  {
    if |ks| > 0 {
      var init, lk := ks[..|ks| - 1], ks[|ks| - 1];
      var p, d := data[..|data| - 1], data[|data| - 1];
      var a, b := Flatten(init, data), Members(data, lk);
      var a', b' := Flatten(init, p), Members(p, lk);
      var here := if d.language == lk then [d] else [];
      assert Flatten(ks, data) == a + b;
      assert Flatten(ks, p) == a' + b';
      assert b == b' + here;
      assert multiset(a + b) == multiset(a) + multiset(b);
      assert multiset(a' + b') == multiset(a') + multiset(b');
      assert multiset(b) == multiset(b') + multiset(here);
      FlattenSnoc(init, data);
      InSnoc(ks, d.language);
    }
  }

  /** Dropping the last element removes it once from the multiset. */
  lemma MultisetSnoc(data: seq<Descriptor>)
    requires |data| > 0
    ensures multiset(data) == multiset(data[..|data| - 1]) + multiset{data[|data| - 1]}
  {
    assert data == data[..|data| - 1] + [data[|data| - 1]];
  }

  /** Flattening the groups of distinct keys that cover every language lists every
      descriptor exactly once. */
  lemma {:induction false} FlattenPermutation(ks: seq<string>, data: seq<Descriptor>)
    requires NoRepeats(ks)
    requires forall j :: 0 <= j < |data| ==> data[j].language in ks
    ensures multiset(Flatten(ks, data)) == multiset(data)
  {
    if |data| == 0 {
      FlattenEmpty(ks);
    } else {
      var p := data[..|data| - 1];
      FlattenSnoc(ks, data);
      MultisetSnoc(data);
      forall j | 0 <= j < |p| ensures p[j].language in ks {
        assert p[j] == data[j];
      }
      FlattenPermutation(ks, p);
    }
  }

  lemma {:induction false} MembersAppend(a: seq<Descriptor>, b: seq<Descriptor>, k: string)
    ensures Members(a + b, k) == Members(a, k) + Members(b, k)
  {
    if |b| == 0 {
      assert a + b == a;
    } else {
      assert (a + b)[..|a + b| - 1] == a + b[..|b| - 1];
      MembersAppend(a, b[..|b| - 1], k);
    }
  }

  lemma {:induction false} MembersOfMembers(data: seq<Descriptor>, k1: string, k: string)
    ensures Members(Members(data, k1), k) == if k == k1 then Members(data, k) else []
  {
    if |data| > 0 {
      var p, last := data[..|data| - 1], data[|data| - 1];
      MembersOfMembers(p, k1, k);
      MembersAppend(Members(p, k1), if last.language == k1 then [last] else [], k);
      if last.language == k1 {
        assert [last][..0] == [];
      }
    }
  }

  lemma {:induction false} MembersOfFlatten(ks: seq<string>, data: seq<Descriptor>, k: string)
    requires NoRepeats(ks)
    ensures Members(Flatten(ks, data), k) == if k in ks then Members(data, k) else []
  {
    if |ks| > 0 {
      var init, last := ks[..|ks| - 1], ks[|ks| - 1];
      var a, b := Flatten(init, data), Members(data, last);
      assert Flatten(ks, data) == a + b;
      MembersAppend(a, b, k);
      MembersOfFlatten(init, data, k);
      MembersOfMembers(data, last, k);
      InSnoc(ks, k);
      if k == last {
        assert Members(a, k) == [];
        assert Members(a, k) + Members(b, k) == Members(data, k);
      } else if k in init {
        assert Members(b, k) == [];
        assert Members(a, k) + Members(b, k) == Members(data, k);
      } else {
        assert k !in ks;
      }
    }
  }

  lemma MembersAbsent(data: seq<Descriptor>, k: string)
    requires forall j :: 0 <= j < |data| ==> data[j].language != k
    ensures Members(data, k) == []
  {
  }

  lemma OrderedKeys(data: seq<Descriptor>)
    ensures Distinct(OwnKeys(FirstSeen(data)))
    ensures forall k :: k in OwnKeys(FirstSeen(data)) <==> k in FirstSeen(data)
  {
    FirstSeenDistinct(data);
    OwnKeysPermutation(FirstSeen(data));
    forall k ensures k in OwnKeys(FirstSeen(data)) <==> k in FirstSeen(data) {
      assert k in OwnKeys(FirstSeen(data)) <==> k in multiset(OwnKeys(FirstSeen(data)));
    }
  }

  /** Every key `Object.keys` lists has a group. */
  lemma NavKeysGrouped(data: seq<Descriptor>)
    ensures forall k :: k in OwnKeys(FirstSeen(data)) ==> k in GroupMap(data)
  {
    OrderedKeys(data);
  }

  /** The nav lists every descriptor exactly once: its order is a permutation of the input. */
  lemma PartitionPermutation(data: seq<Descriptor>)
    ensures multiset(GroupedOrder(data)) == multiset(data)
  {
    OrderedKeys(data);
    DistinctNoRepeats(OwnKeys(FirstSeen(data)));
    FirstSeenLanguages(data);
    FlattenPermutation(OwnKeys(FirstSeen(data)), data);
  }

  /** Within each language the nav keeps input order: picking out one language from the
      nav order gives exactly that language's descriptors in input order. */
  lemma PartitionStable(data: seq<Descriptor>, k: string)
    ensures Members(GroupedOrder(data), k) == Members(data, k)
  {
    OrderedKeys(data);
    DistinctNoRepeats(OwnKeys(FirstSeen(data)));
    FirstSeenLanguages(data);
    MembersOfFlatten(OwnKeys(FirstSeen(data)), data, k);
    if k !in FirstSeen(data) {
      MembersAbsent(data, k);
    }
  }

  /** When no language looks like an array index, groups come in first-occurrence order. */
  lemma FirstSeenKeyOrder(data: seq<Descriptor>)
    requires forall j :: 0 <= j < |data| ==> !IsArrayIndex(data[j].language)
    ensures OwnKeys(FirstSeen(data)) == FirstSeen(data)
    ensures GroupedOrder(data) == Flatten(FirstSeen(data), data)
  {
    FirstSeenLanguages(data);
    forall i | 0 <= i < |FirstSeen(data)| ensures !IsArrayIndex(FirstSeen(data)[i]) {
      assert FirstSeen(data)[i] in FirstSeen(data);
    }
    OwnKeysInsertionOrder(FirstSeen(data));
  }

  // ---- a three-banner manifest ----------------------------------------------

  /** The keys of a manifest x, y, z where x and y share a language and z has another
      one, neither an array index nor an inherited name: both languages, in manifest order. */
  lemma ThreeBannerKeys(x: Descriptor, y: Descriptor, z: Descriptor)
    requires x.language == y.language != z.language
    requires x.language !in PrototypeKeys && z.language !in PrototypeKeys
    requires !IsArrayIndex(x.language) && !IsArrayIndex(z.language)
    ensures GroupsCleanly([x, y, z])
    ensures FirstSeen([x, y, z]) == [x.language, z.language]
    ensures OwnKeys(FirstSeen([x, y, z])) == [x.language, z.language]
  {
    var d := [x, y, z];
    var ks := [x.language, z.language];
    assert d[..2] == [x, y] && [x, y][..1] == [x] && [x][..0] == [];
    assert FirstSeen([x]) == [x.language];
    assert FirstSeen([x, y]) == [x.language];
    OwnKeysInsertionOrder(ks);
  }

  /** Its groups: x and y, then z. */
  lemma ThreeBannerMembers(x: Descriptor, y: Descriptor, z: Descriptor)
    requires x.language == y.language != z.language
    ensures Members([x, y, z], x.language) == [x, y] && Members([x, y, z], z.language) == [z]
  {
    var d := [x, y, z];
    assert d[..2] == [x, y] && [x, y][..1] == [x] && [x][..0] == [];
    assert Members([], x.language) == [] && Members([], z.language) == [];
    assert Members([x], x.language) == [x] && Members([x], z.language) == [];
    assert Members([x, y], x.language) == [x, y] && Members([x, y], z.language) == [];
  }

  /** The nav lists such a manifest in its own order. */
  lemma ThreeBannerGrouping(x: Descriptor, y: Descriptor, z: Descriptor)
    requires x.language == y.language != z.language
    requires x.language !in PrototypeKeys && z.language !in PrototypeKeys
    requires !IsArrayIndex(x.language) && !IsArrayIndex(z.language)
    ensures GroupsCleanly([x, y, z])
    ensures OwnKeys(FirstSeen([x, y, z])) == [x.language, z.language]
    ensures GroupedOrder([x, y, z]) == [x, y, z]
  {
    var d := [x, y, z];
    var ks := [x.language, z.language];
    ThreeBannerKeys(x, y, z);
    ThreeBannerMembers(x, y, z);
    assert ks[..1] == [x.language] && [x.language][..0] == [];
    assert Flatten([x.language], d) == [x, y];
    assert Flatten(ks, d) == [x, y] + [z];
  }
}
