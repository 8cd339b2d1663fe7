/** The identity of a metric series: its attributes as sorted `key=value` parts joined by commas. */
module SeriesKeys {
  /** A label as it is rendered: `value` is the text that the attribute's value emits.  What the
      types of values add is in `TypedLabels`. */
  datatype Attribute = Attribute(key: string, value: string)

  function Part(a: Attribute): string {
    a.key + "=" + a.value
  }

  function Parts(attrs: seq<Attribute>): (r: seq<string>)
    ensures |r| == |attrs|
  {
    seq(|attrs|, i requires 0 <= i < |attrs| => Part(attrs[i]))
  }

  // ----- the order of strings, and sorting by it -----

  /** Go's `<=` on strings. */
  predicate AtMost(a: string, b: string) {
    a == [] || (b != [] && (a[0] < b[0] || (a[0] == b[0] && AtMost(a[1..], b[1..]))))
  }

  lemma {:induction false} AtMostTotal(a: string, b: string)
    ensures AtMost(a, b) || AtMost(b, a)
  {
    if a != [] && b != [] {
      AtMostTotal(a[1..], b[1..]);
    }
  }

  lemma {:induction false} AtMostAntisymmetric(a: string, b: string)
    requires AtMost(a, b) && AtMost(b, a)
    ensures a == b
  {
    if a != [] && b != [] {
      AtMostAntisymmetric(a[1..], b[1..]);
      assert a == [a[0]] + a[1..] && b == [b[0]] + b[1..];
    }
  }

  lemma {:induction false} AtMostTransitive(a: string, b: string, c: string)
    requires AtMost(a, b) && AtMost(b, c)
    ensures AtMost(a, c)
  {
    if a != [] && a[0] == b[0] && b[0] == c[0] {
      AtMostTransitive(a[1..], b[1..], c[1..]);
    }
  }

  ghost predicate Sorted(s: seq<string>) {
    forall i, j :: 0 <= i < j < |s| ==> AtMost(s[i], s[j])
  }

  function Insert(x: string, s: seq<string>): (r: seq<string>)
    ensures multiset(r) == multiset(s) + multiset{x}
  {
    if s == [] then [x]
    else if AtMost(x, s[0]) then
      assert [x] + s == [x] + s;
      [x] + s
    else
      assert s == [s[0]] + s[1..];
      [s[0]] + Insert(x, s[1..])
  }

  /** `sort.Strings`. */
  function Sort(s: seq<string>): (r: seq<string>)
    ensures multiset(r) == multiset(s)
  {
    if s == [] then []
    else
      assert s == [s[0]] + s[1..];
      Insert(s[0], Sort(s[1..]))
  }

  lemma {:induction false} InsertSorted(x: string, s: seq<string>)
    requires Sorted(s)
    ensures Sorted(Insert(x, s))
  {
    if s != [] {
      if AtMost(x, s[0]) {
        forall j | 0 <= j < |s|
          ensures AtMost(x, s[j])
        {
          if j > 0 {
            AtMostTransitive(x, s[0], s[j]);
          }
        }
      } else {
        InsertSorted(x, s[1..]);
        var r := Insert(x, s[1..]);
        forall j | 0 <= j < |r|
          ensures AtMost(s[0], r[j])
        {
          assert r[j] in multiset(r);
          AtMostTotal(x, s[0]);
        }
      }
    }
  }

  lemma {:induction false} SortSorted(s: seq<string>)
    ensures Sorted(Sort(s))
  {
    if s != [] {
      SortSorted(s[1..]);
      InsertSorted(s[0], Sort(s[1..]));
    }
  }

  lemma FirstIsLeast(s: seq<string>, x: string)
    requires Sorted(s) && x in multiset(s)
    ensures s != [] && AtMost(s[0], x)
  {
    assert x in s;
    var i :| 0 <= i < |s| && s[i] == x;
    AtMostReflexive(x);
  }

  lemma SameFirst(a: seq<string>, b: seq<string>)
    requires Sorted(a) && Sorted(b) && a != [] && multiset(a) == multiset(b)
    ensures b != [] && a[0] == b[0] && multiset(a[1..]) == multiset(b[1..])
  {
    assert a[0] in multiset(b);
    FirstIsLeast(b, a[0]);
    assert b[0] in multiset(a);
    FirstIsLeast(a, b[0]);
    AtMostAntisymmetric(a[0], b[0]);
    DropFirst(a);
    DropFirst(b);
  }

  lemma DropFirst(s: seq<string>)
    requires s != []
    ensures multiset(s[1..]) == multiset(s) - multiset{s[0]}
  {
    assert s == [s[0]] + s[1..];
  }

  /** A multiset of strings has one sorted arrangement. */
  lemma {:induction false} SortedUnique(a: seq<string>, b: seq<string>)
    requires Sorted(a) && Sorted(b) && multiset(a) == multiset(b)
    ensures a == b
  {
    if a == [] {
      assert |multiset(b)| == 0;
    } else {
      SameFirst(a, b);
      SortedUnique(a[1..], b[1..]);
      assert a == [a[0]] + a[1..] && b == [b[0]] + b[1..];
    }
  }

  lemma {:induction false} AtMostReflexive(a: string)
    ensures AtMost(a, a)
  {
    if a != [] {
      AtMostReflexive(a[1..]);
    }
  }

  // ----- the key -----

  /** The parts with commas in between. */
  function Join(parts: seq<string>): string {
    if parts == [] then ""
    else if |parts| == 1 then parts[0]
    else parts[0] + "," + Join(parts[1..])
  }

  function SeriesKey(attrs: seq<Attribute>): string {
    Join(Sort(Parts(attrs)))
  }

  /** `seriesKey`: the parts are collected, sorted and joined in loops. */
  method BuildKey(attrs: seq<Attribute>) returns (key: string)
    ensures key == SeriesKey(attrs)
  {
    var parts: seq<string> := [];
    for i := 0 to |attrs|
      invariant parts == Parts(attrs)[..i]
    {
      parts := parts + [Part(attrs[i])];
    }
    assert parts == Parts(attrs);
    parts := Sort(parts);
    key := "";
    for i := 0 to |parts|
      invariant key == JoinFirst(parts, i)
    {
      if i > 0 {
        key := key + ",";
      }
      key := key + parts[i];
    }
    JoinFirstIsJoin(parts);
  }

  /** What the joining loop has written after k parts. */
  ghost function JoinFirst(parts: seq<string>, k: nat): string
    requires k <= |parts|
  {
    if k == 0 then "" else (if k > 1 then JoinFirst(parts, k - 1) + "," else "") + parts[k - 1]
  }

  lemma Reassociate(a: string, b: string, c: string, d: string)
    ensures a + b + c + d == a + (b + c + d)
  {}

  lemma JoinFirstUnfolds(parts: seq<string>, k: nat)
    requires 1 <= k <= |parts|
    ensures JoinFirst(parts, k) == if k == 1 then parts[0] else JoinFirst(parts, k - 1) + "," + parts[k - 1]
  {
    if k == 1 {
      assert "" + parts[0] == parts[0];
    }
  }

  lemma {:induction false} JoinFirstSplit(parts: seq<string>, k: nat)
    requires 2 <= k <= |parts|
    ensures JoinFirst(parts, k) == parts[0] + "," + JoinFirst(parts[1..], k - 1)
  {
    hide JoinFirst;
    var rest, p := parts[1..], parts[0] + ",";
    JoinFirstUnfolds(parts, k);
    JoinFirstUnfolds(rest, k - 1);
    assert parts[k - 1] == rest[k - 2];
    if k == 2 {
      JoinFirstUnfolds(parts, 1);
    } else {
      JoinFirstSplit(parts, k - 1);
      Reassociate(p, JoinFirst(rest, k - 2), ",", rest[k - 2]);
    }
  }

  lemma {:induction false} JoinFirstIsJoin(parts: seq<string>)
    ensures JoinFirst(parts, |parts|) == Join(parts)
  {
    if |parts| > 1 {
      JoinFirstIsJoin(parts[1..]);
      JoinFirstSplit(parts, |parts|);
    }
  }

  /** Only the rendered parts matter, in whatever order. */
  lemma KeyOfParts(a: seq<Attribute>, b: seq<Attribute>)
    requires multiset(Parts(a)) == multiset(Parts(b))
    ensures SeriesKey(a) == SeriesKey(b)
  {
    SortSorted(Parts(a));
    SortSorted(Parts(b));
    SortedUnique(Sort(Parts(a)), Sort(Parts(b)));
  }

  lemma CancelOne<T>(p: multiset<T>, q: multiset<T>, e: T)
    requires p + multiset{e} == q + multiset{e}
    ensures p == q
  {
    assert p == p + multiset{e} - multiset{e};
    assert q == q + multiset{e} - multiset{e};
  }

  lemma PutBack<T>(p: multiset<T>, q: multiset<T>, e: T)
    requires e in p && e in q && p - multiset{e} == q - multiset{e}
    ensures p == q
  {
    assert p == p - multiset{e} + multiset{e};
    assert q == q - multiset{e} + multiset{e};
  }

  /** Attributes in a different order have the same parts in a different order. */
  lemma {:induction false} PermutedParts(a: seq<Attribute>, b: seq<Attribute>)
    requires multiset(a) == multiset(b)
    ensures multiset(Parts(a)) == multiset(Parts(b))
  {
    if a == [] {
      assert |multiset(b)| == 0;
    } else {
      assert a[0] in multiset(b);
      var i :| 0 <= i < |b| && b[i] == a[0];
      WithoutOne(a, 0);
      WithoutOne(b, i);
      hide Parts, Part;
      var rest, left := a[..0] + a[1..], b[..i] + b[i + 1..];
      CancelOne(multiset(rest), multiset(left), a[0]);
      PermutedParts(rest, left);
      PutBack(multiset(Parts(a)), multiset(Parts(b)), Part(a[0]));
    }
  }

  /** Attributes in a different order are the same series. */
  lemma KeyIgnoresOrder(a: seq<Attribute>, b: seq<Attribute>)
    requires multiset(a) == multiset(b)
    ensures SeriesKey(a) == SeriesKey(b)
  {
    PermutedParts(a, b);
    KeyOfParts(a, b);
  }

  ghost predicate NoComma(s: string) {
    ',' !in s
  }

  ghost predicate Plain(parts: seq<string>) {
    forall i :: 0 <= i < |parts| ==> parts[i] != [] && NoComma(parts[i])
  }

  /** Where the first part of a joined string ends. */
  function FirstComma(s: string): (k: nat)
    ensures k <= |s| && ',' !in s[..k] && (k < |s| ==> s[k] == ',')
  {
    if s == [] || s[0] == ',' then 0
    else
      assert s[1..][..FirstComma(s[1..])] == s[..1 + FirstComma(s[1..])][1..];
      1 + FirstComma(s[1..])
  }

  lemma {:induction false} FirstCommaAt(s: string, k: nat)
    requires k <= |s| && ',' !in s[..k] && (k < |s| ==> s[k] == ',')
    ensures FirstComma(s) == k
  {
    if k > 0 {
      assert s[..k][0] == s[0] && s[1..][..k - 1] == s[..k][1..];
      FirstCommaAt(s[1..], k - 1);
    }
  }

  /** Without commas in the parts, joining loses nothing. */
  lemma {:induction false} JoinInjective(a: seq<string>, b: seq<string>)
    requires Plain(a) && Plain(b) && Join(a) == Join(b)
    ensures a == b
  {
    if a == [] || b == [] {
      JoinNonEmpty(a);
      JoinNonEmpty(b);
    } else {
      FirstPart(a);
      FirstPart(b);
      assert a[0] == b[0];
      JoinInjective(a[1..], b[1..]);
      assert a == [a[0]] + a[1..] && b == [b[0]] + b[1..];
    }
  }

  lemma JoinNonEmpty(parts: seq<string>)
    requires Plain(parts)
    ensures Join(parts) == "" <==> parts == []
  {}

  /** The first part and the rest can be read off the joined string. */
  lemma FirstPart(parts: seq<string>)
    requires Plain(parts) && parts != []
    ensures var s, k := Join(parts), FirstComma(Join(parts));
            && s[..k] == parts[0]
            && (k == |s| <==> |parts| == 1)
            && Join(parts[1..]) == if k < |s| then s[k + 1..] else ""
  {
    var p := parts[0];
    if |parts| == 1 {
      assert p[..|p|] == p;
      FirstCommaAt(p, |p|);
    } else {
      CutAtComma(p, Join(parts[1..]));
    }
  }

  lemma CutAtComma(p: string, rest: string)
    requires NoComma(p)
    ensures var s := p + "," + rest;
            FirstComma(s) == |p| && s[..|p|] == p && s[|p| + 1..] == rest
  {
    var s := p + "," + rest;
    assert s[..|p|] == p && s[|p|] == ',';
    FirstCommaAt(s, |p|);
  }

  /** Without commas, keys identify the rendered `key=value` parts. */
  lemma KeyIdentifiesParts(a: seq<Attribute>, b: seq<Attribute>)
    requires forall i :: 0 <= i < |a| ==> NoComma(Part(a[i]))
    requires forall i :: 0 <= i < |b| ==> NoComma(Part(b[i]))
    ensures SeriesKey(a) == SeriesKey(b) <==> multiset(Parts(a)) == multiset(Parts(b))
  {
    if multiset(Parts(a)) == multiset(Parts(b)) {
      KeyOfParts(a, b);
    }
    if SeriesKey(a) == SeriesKey(b) {
      PlainParts(a);
      PlainParts(b);
      JoinInjective(Sort(Parts(a)), Sort(Parts(b)));
    }
  }

  lemma PlainParts(a: seq<Attribute>)
    requires forall i :: 0 <= i < |a| ==> NoComma(Part(a[i]))
    ensures Plain(Sort(Parts(a)))
  {
    var sorted := Sort(Parts(a));
    forall i | 0 <= i < |sorted|
      ensures sorted[i] != [] && NoComma(sorted[i])
    {
      assert sorted[i] in multiset(sorted);
      assert sorted[i] in Parts(a);
    }
  }

  /** With commas two different label sets can share one series: a="1,b=2" and a="1", b="2". */
  lemma CommasCollide()
    ensures var one, two := [Attribute("a", "1,b=2")], [Attribute("a", "1"), Attribute("b", "2")];
            SeriesKey(one) == SeriesKey(two) && multiset(Parts(one)) != multiset(Parts(two))
  {
    PartsOfCollision();
    SortOne("a=1,b=2");
    SortTwo("a=1", "b=2");
    JoinTwo("a=1", "b=2");
    assert "a=1" + "," + "b=2" == "a=1,b=2";
    assert |multiset(["a=1,b=2"])| == 1 && |multiset(["a=1", "b=2"])| == 2;
  }

  lemma PartsOfCollision()
    ensures Parts([Attribute("a", "1,b=2")]) == ["a=1,b=2"]
    ensures Parts([Attribute("a", "1"), Attribute("b", "2")]) == ["a=1", "b=2"]
  {
    assert "a" + "=" + "1,b=2" == "a=1,b=2";
    assert "a" + "=" + "1" == "a=1" && "b" + "=" + "2" == "b=2";
  }

  lemma JoinTwo(x: string, y: string)
    ensures Join([x, y]) == x + "," + y
  {
    assert [x, y][1..] == [y];
  }

  lemma SortOne(x: string)
    ensures Sort([x]) == [x]
  {
    assert [x][1..] == [];
  }

  lemma SortTwo(x: string, y: string)
    requires AtMost(x, y)
    ensures Sort([x, y]) == [x, y]
  {
    assert [x, y][1..] == [y];
    SortOne(y);
  }

  // ----- when the key identifies the label set -----

  /** The attributes have their keys in K, and commas in values only if allowed. */
  ghost predicate Drawn(K: set<string>, commas: bool, attrs: seq<Attribute>) {
    forall i :: 0 <= i < |attrs| ==> attrs[i].key in K && (commas || NoComma(attrs[i].value))
  }

  /** Among such attributes, equal series keys mean equal label sets. */
  ghost predicate Identifies(K: set<string>, commas: bool) {
    forall a: seq<Attribute>, b: seq<Attribute> ::
      Drawn(K, commas, a) && Drawn(K, commas, b) && SeriesKey(a) == SeriesKey(b) ==> multiset(a) == multiset(b)
  }

  /** No key goes on with '=' to make another key. */
  ghost predicate PrefixSafe(K: set<string>) {
    forall j, k :: j in K && k in K ==> !(j + "=" <= k)
  }

  /** A part whose key is in K and whose value has no comma. */
  ghost predicate Legit(K: set<string>, x: Attribute) {
    x.key in K && NoComma(x.value)
  }

  /** Two keys that both begin a string are equal, or one goes on with '=' to make the other. */
  lemma KeysAtFront(j: string, k: string, s: string)
    requires j + "=" <= s && k + "=" <= s
    ensures j == k || j + "=" <= k || k + "=" <= j
  {
    assert s[..|j|] == (j + "=")[..|j|] == j && s[..|k|] == (k + "=")[..|k|] == k;
    assert s[..|j| + 1] == j + "=" && s[..|k| + 1] == k + "=";
  }

  lemma SameKey(K: set<string>, x: Attribute, y: Attribute, p: string, q: string)
    requires PrefixSafe(K) && Legit(K, x) && Legit(K, y) && Part(x) + p == Part(y) + q
    ensures x.key == y.key && x.value + p == y.value + q
  {
    var s := Part(x) + p;
    assert s == (x.key + "=") + (x.value + p) && s == (y.key + "=") + (y.value + q);
    KeysAtFront(x.key, y.key, s);
    assert s[|x.key| + 1..] == x.value + p && s[|y.key| + 1..] == y.value + q;
  }

  lemma SameValue(v: string, w: string, p: string, q: string)
    requires NoComma(v) && NoComma(w) && v + p == w + q
    requires (p == "" || p[0] == ',') && (q == "" || q[0] == ',')
    ensures v == w && p == q
  {
    var s := v + p;
    assert s[..|v|] == v && s[|v|..] == p && s[..|w|] == w && s[|w|..] == q;
    FirstCommaAt(s, |v|);
    FirstCommaAt(s, |w|);
  }

  /** What follows the first part of a joined string. */
  function After(parts: seq<string>): string
    requires parts != []
  {
    if |parts| == 1 then "" else "," + Join(parts[1..])
  }

  lemma JoinFromFirst(parts: seq<string>)
    requires parts != []
    ensures Join(parts) == parts[0] + After(parts)
    ensures After(parts) == "" <==> |parts| == 1
    ensures |parts| > 1 ==> After(parts)[0] == ',' && After(parts)[1..] == Join(parts[1..])
  {
    hide Join;
    assert Join(parts) == parts[0] + After(parts) by {
      JoinUnfolds(parts);
      Associate(parts[0], ",", Join(parts[1..]));
    }
  }

  lemma JoinUnfolds(parts: seq<string>)
    requires parts != []
    ensures Join(parts) == if |parts| == 1 then parts[0] else parts[0] + "," + Join(parts[1..])
  {}

  lemma Associate(a: string, b: string, c: string)
    ensures a + b + c == a + (b + c)
  {}

  lemma NothingJoined(a: seq<Attribute>)
    ensures Join(Parts(a)) == "" <==> a == []
  {
    if a != [] {
      JoinFromFirst(Parts(a));
    }
  }

  /** Joined parts can be read back, whatever commas the keys contain. */
  lemma {:induction false} ReadBack(K: set<string>, a: seq<Attribute>, b: seq<Attribute>)
    requires PrefixSafe(K) && Join(Parts(a)) == Join(Parts(b))
    requires forall i :: 0 <= i < |a| ==> Legit(K, a[i])
    requires forall i :: 0 <= i < |b| ==> Legit(K, b[i])
    ensures a == b
  {
    hide PrefixSafe, After, Part;
    NothingJoined(a);
    NothingJoined(b);
    if a != [] && b != [] {
      var p, q := Parts(a), Parts(b);
      JoinFromFirst(p);
      JoinFromFirst(q);
      SameKey(K, a[0], b[0], After(p), After(q));
      SameValue(a[0].value, b[0].value, After(p), After(q));
      assert p[1..] == Parts(a[1..]) && q[1..] == Parts(b[1..]);
      if |a| > 1 {
        ReadBack(K, a[1..], b[1..]);
      }
      assert a == [a[0]] + a[1..] && b == [b[0]] + b[1..];
    }
  }

  /** The attributes behind a sorted arrangement of their parts. */
  lemma {:induction false} Arranged(a: seq<Attribute>, parts: seq<string>) returns (r: seq<Attribute>)
    requires multiset(parts) == multiset(Parts(a))
    ensures Parts(r) == parts && multiset(r) == multiset(a)
  {
    if parts == [] {
      assert |multiset(Parts(a))| == 0;
      r := [];
    } else {
      assert parts[0] in multiset(Parts(a));
      assert parts[0] in Parts(a);
      var i :| 0 <= i < |a| && Part(a[i]) == parts[0];
      WithoutOne(a, i);
      DropFirst(parts);
      var rest := Arranged(a[..i] + a[i + 1..], parts[1..]);
      r := [a[i]] + rest;
      PutInFront(a[i], rest, parts);
    }
  }

  lemma PutInFront(x: Attribute, rest: seq<Attribute>, parts: seq<string>)
    requires parts != [] && Part(x) == parts[0] && Parts(rest) == parts[1..]
    ensures Parts([x] + rest) == parts
  {
    assert Parts([x] + rest) == [Part(x)] + Parts(rest);
  }

  lemma WithoutOne(a: seq<Attribute>, i: nat)
    requires i < |a|
    ensures var rest := a[..i] + a[i + 1..];
            && multiset(a) == multiset(rest) + multiset{a[i]}
            && multiset(Parts(rest)) == multiset(Parts(a)) - multiset{Part(a[i])}
            && Part(a[i]) in multiset(Parts(a))
  {
    assert a == a[..i] + [a[i]] + a[i + 1..];
    var p := Parts(a);
    assert p == p[..i] + [p[i]] + p[i + 1..];
    assert Parts(a[..i] + a[i + 1..]) == p[..i] + p[i + 1..];
  }

  /** Prefix-safe keys, with or without commas in them, and comma-free values: the series key
      identifies the label set. */
  lemma PrefixSafeIdentifies(K: set<string>)
    requires PrefixSafe(K)
    ensures Identifies(K, false)
  {
    forall a: seq<Attribute>, b: seq<Attribute> |
      Drawn(K, false, a) && Drawn(K, false, b) && SeriesKey(a) == SeriesKey(b)
      ensures multiset(a) == multiset(b)
    {
      var x := Arranged(a, Sort(Parts(a)));
      var y := Arranged(b, Sort(Parts(b)));
      StillLegit(K, a, x);
      StillLegit(K, b, y);
      ReadBack(K, x, y);
    }
  }

  lemma StillLegit(K: set<string>, a: seq<Attribute>, r: seq<Attribute>)
    requires Drawn(K, false, a) && multiset(r) == multiset(a)
    ensures forall i :: 0 <= i < |r| ==> Legit(K, r[i])
  {
    forall i | 0 <= i < |r|
      ensures Legit(K, r[i])
    {
      assert r[i] in multiset(a);
      assert r[i] in a;
    }
  }

  lemma NotIdentified(K: set<string>, commas: bool, a: seq<Attribute>, b: seq<Attribute>)
    requires Drawn(K, commas, a) && Drawn(K, commas, b)
    requires SeriesKey(a) == SeriesKey(b) && multiset(a) != multiset(b)
    ensures !Identifies(K, commas)
  {}

  /** One attribute on each side, rendered alike. */
  lemma OneForOne(x: Attribute, y: Attribute)
    requires Part(x) == Part(y) && x != y
    ensures SeriesKey([x]) == SeriesKey([y]) && multiset([x]) != multiset([y])
  {
    assert Parts([x]) == [Part(x)] && Parts([y]) == [Part(y)];
    assert x in multiset([x]) && x !in multiset([y]);
  }

  /** If a key goes on with '=' to make another one, two values make them collide. */
  lemma PrefixCollides(K: set<string>, j: string, k: string)
    requires j in K && k in K && j + "=" <= k && NoComma(k)
    ensures !Identifies(K, false)
  {
    var x, y := PrefixCollision(j, k);
    NotIdentified(K, false, [x], [y]);
  }

  lemma PrefixCollision(j: string, k: string) returns (x: Attribute, y: Attribute)
    requires j + "=" <= k && NoComma(k)
    ensures x.key == j && y.key == k && NoComma(x.value) && NoComma(y.value)
    ensures x != y && SeriesKey([x]) == SeriesKey([y]) && multiset([x]) != multiset([y])
  {
    var t := k[|j| + 1..];
    x, y := Attribute(j, t + "="), Attribute(k, "");
    SplitKey(j, k, t);
    OneForOne(x, y);
  }

  lemma SplitKey(j: string, k: string, t: string)
    requires j + "=" <= k && t == k[|j| + 1..] && NoComma(k)
    ensures Part(Attribute(j, t + "=")) == Part(Attribute(k, "")) && NoComma(t + "=") && j != k
  {
    assert k == j + "=" + t;
    assert j + "=" + (t + "=") == k + "=" + "";
    assert forall c :: c in t ==> c in k;
  }

  /** Commas in values make every key collide with itself. */
  lemma CommaValueCollides(K: set<string>, k: string)
    requires k in K
    ensures !Identifies(K, true)
  {
    var x, y := Attribute(k, "," + (k + "=")), Attribute(k, "");
    CommaParts(k);
    hide Part, SeriesKey;
    OneForTwo(x, y);
    NotIdentified(K, true, [x], [y, y]);
  }

  lemma CommaParts(k: string)
    ensures Part(Attribute(k, "")) == k + "="
    ensures Part(Attribute(k, "," + (k + "="))) == Part(Attribute(k, "")) + "," + Part(Attribute(k, ""))
  {
    var p := k + "=";
    assert p + "" == p;
    assert p + ("," + p) == p + "," + p;
  }

  lemma OneForTwo(x: Attribute, y: Attribute)
    requires Part(x) == Part(y) + "," + Part(y)
    ensures SeriesKey([x]) == SeriesKey([y, y]) && multiset([x]) != multiset([y, y])
  {
    assert Parts([x]) == [Part(x)] && Parts([y, y]) == [Part(y), Part(y)];
    AtMostReflexive(Part(y));
    SortOne(Part(x));
    SortTwo(Part(y), Part(y));
    JoinTwo(Part(y), Part(y));
    assert |multiset([x])| == 1 && |multiset([y, y])| == 2;
  }

  /** Exactly when equal series keys mean equal label sets, for comma-free keys: with comma-free
      values, if and only if no key goes on with '=' to make another; with arbitrary values, never. */
  lemma KeyIdentifiesSeries(K: set<string>)
    requires forall k :: k in K ==> NoComma(k)
    ensures Identifies(K, false) <==> PrefixSafe(K)
    ensures Identifies(K, true) <==> K == {}
  {
    if PrefixSafe(K) {
      PrefixSafeIdentifies(K);
    } else {
      var j, k :| j in K && k in K && j + "=" <= k;
      PrefixCollides(K, j, k);
    }
    if K == {} {
      assert forall a: seq<Attribute> :: Drawn(K, true, a) ==> a == [] || a[0].key in K;
    } else {
      var k :| k in K;
      CommaValueCollides(K, k);
    }
  }

  /** Without any comma, a="b=c" and a=b="c" share the key "a=b=c". */
  lemma EqualsCollide()
    ensures var one, two := [Attribute("a", "b=c")], [Attribute("a=b", "c")];
            SeriesKey(one) == SeriesKey(two) && multiset(one) != multiset(two)
  {
    assert "a" + "=" + "b=c" == "a=b=c";
    assert "a=b" + "=" + "c" == "a=b=c";
    OneForOne(Attribute("a", "b=c"), Attribute("a=b", "c"));
  }
}
