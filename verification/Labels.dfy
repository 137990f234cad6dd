// Label selectors: building the text, and matching an object against it.
module Labels {
  import opened Wrappers
  import opened Json
  import opened Text
  import opened Work
  import opened Sorting

  type LabelMap = map<string, string>

  function Pair(k: string, labels: LabelMap): string
    requires k in labels
  {
    k + "=" + labels[k]
  }

  ghost predicate Enumerates(keys: seq<string>, labels: LabelMap) {
    (forall k :: k in keys <==> k in labels)
    && forall i, j :: 0 <= i < j < |keys| ==> keys[i] != keys[j]
  }

  ghost predicate Ascending(keys: seq<string>) {
    forall i, j :: 0 <= i < j < |keys| ==> Less(keys[i], keys[j])
  }

  function Pairs(keys: seq<string>, labels: LabelMap): (pairs: seq<string>)
    requires forall k :: k in keys ==> k in labels
    ensures |pairs| == |keys| && forall i :: 0 <= i < |keys| ==> pairs[i] == Pair(keys[i], labels)
  {
    if keys == [] then [] else Pairs(keys[..|keys| - 1], labels) + [Pair(keys[|keys| - 1], labels)]
  }

  /** The selector text of a label map: its pairs in ascending key order. */
  ghost predicate IsSelector(text: string, labels: LabelMap) {
    exists keys :: Enumerates(keys, labels) && Ascending(keys) && text == Join(Pairs(keys, labels), ',')
  }

  /** `order` is the order in which the runtime happens to range over the map. */
  method BuildLabelSelector(labels: LabelMap, order: seq<string>) returns (text: string)
    requires Enumerates(order, labels)
    ensures IsSelector(text, labels)
  {
    if |labels| == 0 {
      EmptySelector(labels);
      return "";
    }
    var keys := SortedKeys(order, labels);
    var pairs: seq<string> := [];
    for i := 0 to |keys|
      invariant pairs == Pairs(keys[..i], labels)
    {
      assert keys[..i + 1][..i] == keys[..i];
      pairs := pairs + [Pair(keys[i], labels)];
    }
    assert keys[..|keys|] == keys;
    text := Join(pairs, ',');
    SelectorOf(keys, labels);
  }

  lemma SelectorOf(keys: seq<string>, labels: LabelMap)
    requires Enumerates(keys, labels) && Ascending(keys)
    ensures IsSelector(Join(Pairs(keys, labels), ','), labels)
  {
  }

  lemma EmptySelector(labels: LabelMap)
    requires |labels| == 0
    ensures IsSelector("", labels)
  {
    assert labels == map[];
    assert Enumerates([], labels) && Ascending([]) && Join(Pairs([], labels), ',') == "";
  }

  method SortedKeys(order: seq<string>, ghost labels: LabelMap) returns (keys: seq<string>)
    requires Enumerates(order, labels)
    ensures Enumerates(keys, labels) && Ascending(keys)
  {
    hide Enumerates, Ascending;
    var a := new string[|order|](i requires 0 <= i < |order| => order[i]);
    assert a[..] == order;
    LessOrder();
    SortInPlace(a, Less);
    keys := a[..];
    SortedEnumeration(order, keys, labels);
  }

  lemma SortedEnumeration(order: seq<string>, sorted: seq<string>, labels: LabelMap)
    requires Enumerates(order, labels)
    requires multiset(sorted) == multiset(order) && Ordered(sorted, Less)
    ensures Enumerates(sorted, labels) && Ascending(sorted)
  {
    forall k ensures k in sorted <==> k in order {
      assert k in sorted <==> k in multiset(sorted);
      assert k in order <==> k in multiset(order);
    }
    forall i, j | 0 <= i < j < |sorted| ensures sorted[i] != sorted[j] && Less(sorted[i], sorted[j]) {
      Duplicate(sorted, i, j);
      Distinct(order, sorted[i]);
      LessTotal(sorted[i], sorted[j]);
    }
  }

  lemma Duplicate(s: seq<string>, i: nat, j: nat)
    requires i < j < |s|
    ensures s[i] == s[j] ==> multiset(s)[s[i]] >= 2
  {
    assert s == s[..j] + s[j..];
    assert s[i] in s[..j] && s[j] in s[j..];
    assert multiset(s) == multiset(s[..j]) + multiset(s[j..]);
    assert s[i] in multiset(s[..j]) && s[j] in multiset(s[j..]);
  }

  lemma {:induction false} Distinct(s: seq<string>, x: string)
    requires forall i, j :: 0 <= i < j < |s| ==> s[i] != s[j]
    ensures multiset(s)[x] <= 1
  {
    if s != [] {
      Distinct(s[1..], x);
      assert s == [s[0]] + s[1..];
      assert multiset(s) == multiset{s[0]} + multiset(s[1..]);
      if s[0] == x {
        assert x !in s[1..];
        assert x !in multiset(s[1..]);
      }
    }
  }

  /** The text does not depend on the order in which the map was ranged over. */
  lemma SelectorUnique(t1: string, t2: string, labels: LabelMap)
    requires IsSelector(t1, labels) && IsSelector(t2, labels)
    ensures t1 == t2
  {
    var k1 :| Enumerates(k1, labels) && Ascending(k1) && t1 == Join(Pairs(k1, labels), ',');
    var k2 :| Enumerates(k2, labels) && Ascending(k2) && t2 == Join(Pairs(k2, labels), ',');
    AscendingUnique(k1, k2);
  }

  lemma SomeElement(s: seq<string>)
    ensures s != [] ==> exists k :: k in s
  {
    if s != [] { assert s[0] in s; }
  }

  lemma {:induction false} AscendingUnique(a: seq<string>, b: seq<string>)
    requires Ascending(a) && Ascending(b) && forall k :: k in a <==> k in b
    ensures a == b
  {
    if a == [] {
      SomeElement(b);
    } else {
      assert a[0] in a && a[0] in b;
      assert b[0] in b && b[0] in a;
      var i :| 0 <= i < |b| && b[i] == a[0];
      var j :| 0 <= j < |a| && a[j] == b[0];
      if i > 0 && j > 0 { LessTransitive(a[0], b[0], a[0]); LessIrreflexive(a[0]); }
      forall x { LessIrreflexive(x); }
      assert a[0] == b[0];
      forall k ensures k in a[1..] <==> k in b[1..] {
        assert k in a <==> k == a[0] || k in a[1..] by { assert a == [a[0]] + a[1..]; }
        assert k in b <==> k == b[0] || k in b[1..] by { assert b == [b[0]] + b[1..]; }
        if a[0] in a[1..] || b[0] in b[1..] { assert false; }
      }
      AscendingUnique(a[1..], b[1..]);
      assert a == [a[0]] + a[1..] && b == [b[0]] + b[1..];
    }
  }

  lemma {:induction false} PairsTail(keys: seq<string>, labels: LabelMap, k: string)
    requires keys != [] && keys[0] == k && (forall x :: x in keys ==> x in labels) && k !in keys[1..]
    ensures Pairs(keys, labels) == [k + "=" + labels[k]] + Pairs(keys[1..], labels - {k})
  {
    if |keys| > 1 {
      var front := keys[..|keys| - 1];
      assert front[1..] == keys[1..][..|keys| - 2];
      PairsTail(front, labels, k);
    }
  }

  /**
   * The text of a selector: nothing for no labels, and otherwise the least key, an equals sign and its
   * value, followed, after a comma, by the text for the others.
   */
  lemma SelectorText(text: string, labels: LabelMap, least: string, rest: string)
    requires IsSelector(text, labels) && least in labels && IsSelector(rest, labels - {least})
    requires forall k :: k in labels && k != least ==> Less(least, k)
    ensures text == least + "=" + labels[least] + if labels.Keys == {least} then "" else "," + rest
  {
    hide Join, Pairs;
    var keys :| Enumerates(keys, labels) && Ascending(keys) && text == Join(Pairs(keys, labels), ',');
    var others :| Enumerates(others, labels - {least}) && Ascending(others)
      && rest == Join(Pairs(others, labels - {least}), ',');
    LeastIsFirst(keys, labels, least);
    TailEnumerates(keys, labels, least);
    AscendingUnique(keys[1..], others);
    PairsTail(keys, labels, least);
    JoinFirst(least + "=" + labels[least], Pairs(others, labels - {least}));
    if others == [] {
      forall k | k in labels ensures k == least { assert k in keys && keys == [keys[0]]; }
    } else {
      assert others[0] in labels - {least};
    }
  }

  lemma LeastIsFirst(keys: seq<string>, labels: LabelMap, least: string)
    requires Enumerates(keys, labels) && Ascending(keys) && least in labels
    requires forall k :: k in labels && k != least ==> Less(least, k)
    ensures keys != [] && keys[0] == least
  {
    assert least in keys;
    var i :| 0 <= i < |keys| && keys[i] == least;
    if i > 0 {
      assert keys[0] in keys;
      LessTransitive(least, keys[0], least);
      LessIrreflexive(least);
    }
  }

  lemma TailEnumerates(keys: seq<string>, labels: LabelMap, least: string)
    requires Enumerates(keys, labels) && Ascending(keys) && keys != [] && keys[0] == least
    ensures Ascending(keys[1..]) && least !in keys[1..] && forall k :: k in keys[1..] <==> k in labels - {least}
  {
    assert keys == [least] + keys[1..];
    forall k ensures k in keys[1..] <==> k in labels - {least} {
      assert k in keys <==> k == least || k in keys[1..];
      if least in keys[1..] {
        var i :| 0 <= i < |keys[1..]| && keys[1..][i] == least;
        assert keys[i + 1] == keys[0];
      }
    }
  }

  lemma JoinFirst(first: string, parts: seq<string>)
    ensures Join([first] + parts, ',') == first + if parts == [] then "" else "," + Join(parts, ',')
  {
    assert ([first] + parts)[1..] == parts;
  }

  /** Go's map read: a missing key reads as "". */
  function Lookup(m: LabelMap, k: string): string {
    if k in m then m[k] else ""
  }

  predicate PairHolds(pair: string, objLabels: LabelMap) {
    var kv := SplitN2(pair, '=');
    |kv| == 2 ==> Lookup(objLabels, kv[0]) == kv[1]
  }

  ghost predicate Matches(objLabels: Option<LabelMap>, selector: string) {
    selector == ""
    || (objLabels.Some? && forall pair :: pair in Split(selector, ',') ==> PairHolds(pair, objLabels.value))
  }

  method MatchesLabels(obj: Json, labelSelector: string) returns (r: bool)
    ensures r <==> Matches(GetLabels(obj), labelSelector)
  {
    if labelSelector == "" {
      return true;
    }
    var objLabels := GetLabels(obj);
    if objLabels.None? {
      return false;
    }
    var pairs := Split(labelSelector, ',');
    for i := 0 to |pairs|
      invariant forall pair :: pair in pairs[..i] ==> PairHolds(pair, objLabels.value)
    {
      var kv := SplitN2(pairs[i], '=');
      if |kv| == 2 && Lookup(objLabels.value, kv[0]) != kv[1] {
        assert !PairHolds(pairs[i], objLabels.value);
        return false;
      }
    }
    assert pairs[..|pairs|] == pairs;
    return true;
  }

  ghost predicate Agrees(labels: LabelMap, objLabels: LabelMap) {
    forall k :: k in labels ==> Lookup(objLabels, k) == labels[k]
  }

  predicate CleanKey(k: string) {
    '=' !in k && ',' !in k
  }

  ghost predicate Clean(labels: LabelMap) {
    forall k :: k in labels ==> CleanKey(k) && ',' !in labels[k]
  }

  /**
   * Matching a built selector means "every selector label equals the object's value, missing read
   * as empty" exactly for the label maps whose keys avoid '=' and ',' and whose values avoid ','.
   */
  lemma SelectorRoundTrip(text: string, labels: LabelMap)
    requires IsSelector(text, labels)
    ensures (forall o: LabelMap :: Matches(Some(o), text) <==> Agrees(labels, o)) <==> Clean(labels)
  {
    if Clean(labels) {
      forall o: LabelMap { CleanRoundTrip(text, labels, o); }
    } else {
      var k :| k in labels && !(CleanKey(k) && ',' !in labels[k]);
      if !CleanKey(k) {
        DirtyKeyIgnored(text, labels, k);
      } else {
        DirtyValueMisread(text, labels, k);
      }
    }
  }

  /**
   * Matching objects carry every selector label exactly when no selector value is empty: a missing
   * label reads as "", so an empty value is also met by an object that lacks the label.
   */
  lemma MatchesOnlyLabelled(text: string, labels: LabelMap)
    requires IsSelector(text, labels) && Clean(labels)
    ensures (forall o: LabelMap :: Matches(Some(o), text) ==> forall k :: k in labels ==> k in o)
       <==> (forall k :: k in labels ==> labels[k] != "")
  {
    hide Matches, IsSelector, CleanKey;
    forall o: LabelMap { CleanRoundTrip(text, labels, o); }
    if k :| k in labels && labels[k] == "" {
      var o := labels - {k};
      assert Agrees(labels, o);
      assert k in labels && k !in o;
    }
  }

  /** Such an object: a selector for an empty label is matched without it. */
  lemma MissingLabelMatches(text: string)
    requires IsSelector(text, map["app" := ""])
    ensures Matches(Some(map[]), text)
  {
    hide Matches, IsSelector;
    CleanRoundTrip(text, map["app" := ""], map[]);
  }

  /** The pieces of a clean selector are its pairs again. */
  lemma CleanPieces(keys: seq<string>, labels: LabelMap)
    requires keys != [] && Enumerates(keys, labels) && Clean(labels)
    ensures var text := Join(Pairs(keys, labels), ','); Split(text, ',') == Pairs(keys, labels) && text != ""
  {
    var pairs := Pairs(keys, labels);
    hide Pairs;
    forall p | p in pairs ensures ',' !in p {
      var i :| 0 <= i < |pairs| && pairs[i] == p;
      assert keys[i] in keys;
    }
    SplitJoin(pairs, ',');
    assert |pairs[0]| > 0 && Split("", ',') == [""];
  }

  lemma CleanPair(k: string, labels: LabelMap, o: LabelMap)
    requires k in labels && CleanKey(k)
    ensures PairHolds(Pair(k, labels), o) <==> Lookup(o, k) == labels[k]
  {
    SplitN2Recovers(k, '=', labels[k]);
  }

  lemma CleanRoundTrip(text: string, labels: LabelMap, o: LabelMap)
    requires IsSelector(text, labels) && Clean(labels)
    ensures Matches(Some(o), text) <==> Agrees(labels, o)
  {
    hide Join, Split, PairHolds, Lookup, Ascending, Pair, Pairs, IsSelector, Enumerates, CleanKey;
    var keys := KeysOf(text, labels);
    var pairs := Pairs(keys, labels);
    if keys == [] {
      EmptyJoin();
      return;
    }
    CleanPieces(keys, labels);
    forall k | k in labels
      ensures Pair(k, labels) in pairs && (PairHolds(Pair(k, labels), o) <==> Lookup(o, k) == labels[k])
    {
      var i :| 0 <= i < |keys| && keys[i] == k;
      assert pairs[i] in pairs;
      CleanPair(k, labels, o);
    }
    forall p | p in pairs ensures exists k :: k in labels && p == Pair(k, labels) {
      var i :| 0 <= i < |pairs| && pairs[i] == p;
      assert keys[i] in keys;
    }
  }

  lemma KeysOf(text: string, labels: LabelMap) returns (keys: seq<string>)
    requires IsSelector(text, labels)
    ensures (forall k :: k in keys <==> k in labels) && Enumerates(keys, labels)
    ensures text == Join(Pairs(keys, labels), ',')
  {
    hide Pairs, Join, Ascending;
    keys :| Enumerates(keys, labels) && Ascending(keys) && text == Join(Pairs(keys, labels), ',');
  }

  lemma EmptyJoin()
    ensures Join([], ',') == ""
  {
  }

  /** No piece of a selector text ever asks about a key that holds a separator. */
  lemma DirtyKeyIgnored(text: string, labels: LabelMap, k: string)
    requires IsSelector(text, labels) && k in labels && !CleanKey(k)
    ensures exists o: LabelMap :: !(Matches(Some(o), text) <==> Agrees(labels, o))
  {
    assert Agrees(labels, labels);
    if Matches(Some(labels), text) {
      var o := labels[k := labels[k] + "x"];
      forall p | p in Split(text, ',') ensures PairHolds(p, labels) ==> PairHolds(p, o) {
        var kv := SplitN2(p, '=');
        if |kv| == 2 {
          assert forall c :: c in kv[0] ==> c in p;
          assert kv[0] != k;
        }
      }
      assert Lookup(o, k) != labels[k];
      assert Matches(Some(o), text) && !Agrees(labels, o);
    }
  }

  /** A value with a comma is cut short, so even the label map itself does not match. */
  lemma DirtyValueMisread(text: string, labels: LabelMap, k: string)
    requires IsSelector(text, labels) && k in labels && CleanKey(k) && ',' in labels[k]
    ensures exists o: LabelMap :: !(Matches(Some(o), text) <==> Agrees(labels, o))
  {
    hide Pairs;
    var keys :| Enumerates(keys, labels) && Ascending(keys) && text == Join(Pairs(keys, labels), ',');
    var cut := SplitN2(labels[k], ',');
    var i :| 0 <= i < |keys| && keys[i] == k;
    var piece := k + "=" + cut[0];
    assert Pairs(keys, labels)[i] == piece + "," + cut[1];
    PieceOfJoin(Pairs(keys, labels), i, piece, cut[1]);
    SplitN2Recovers(k, '=', cut[0]);
    assert !PairHolds(piece, labels) by { assert labels[k] != cut[0]; }
    assert |piece| > 0 && Split("", ',') == [""];
    assert !Matches(Some(labels), text) && Agrees(labels, labels);
  }

  lemma {:induction false} PieceOfJoin(parts: seq<string>, i: nat, piece: string, tail: string)
    requires i < |parts| && parts[i] == piece + "," + tail && ',' !in piece
    ensures piece in Split(Join(parts, ','), ',')
  {
    if i > 0 {
      PieceOfJoin(parts[1..], i - 1, piece, tail);
      SplitAppend(parts[0], Join(parts[1..], ','));
      assert parts[0] + [','] + Join(parts[1..], ',') == Join(parts, ',');
    } else if |parts| == 1 {
      SplitHead(piece, ',', tail);
    } else {
      var rest := tail + "," + Join(parts[1..], ',');
      assert Join(parts, ',') == piece + [','] + rest;
      SplitHead(piece, ',', rest);
    }
  }

  lemma {:induction false} SplitAppend(a: string, b: string)
    ensures forall p :: p in Split(b, ',') ==> p in Split(a + [','] + b, ',')
    decreases |a|
  {
    if ',' !in a {
      SplitHead(a, ',', b);
    } else {
      var cut := SplitN2(a, ',');
      SplitAppend(cut[1], b);
      assert a + [','] + b == cut[0] + [','] + (cut[1] + [','] + b);
      SplitHead(cut[0], ',', cut[1] + [','] + b);
    }
  }
}
