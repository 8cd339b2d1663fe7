/** Metric labels with typed values.  The series key is made of the texts that the values emit, so it
    can only identify what those texts tell apart. */
module TypedLabels {
  import opened AttemptHeaders
  import opened SeriesKeys

  datatype Label<V> = Label(key: string, value: V)

  /** The labels with their values as text. */
  function Rendered<V>(emit: V -> string, labels: seq<Label<V>>): (r: seq<Attribute>)
    ensures |r| == |labels|
  {
    seq(|labels|, i requires 0 <= i < |labels| => Attribute(labels[i].key, emit(labels[i].value)))
  }

  /** Among labels with keys in K and comma-free texts, equal series keys mean equal label sets. */
  ghost predicate IdentifiesLabels<V(!new)>(K: set<string>, emit: V -> string) {
    forall a: seq<Label<V>>, b: seq<Label<V>> :: SameSeries(K, emit, a, b) ==> multiset(a) == multiset(b)
  }

  /** Both have keys in K and comma-free texts, and they share a series key. */
  ghost predicate SameSeries<V>(K: set<string>, emit: V -> string, a: seq<Label<V>>, b: seq<Label<V>>) {
    && Drawn(K, false, Rendered(emit, a)) && Drawn(K, false, Rendered(emit, b))
    && SeriesKey(Rendered(emit, a)) == SeriesKey(Rendered(emit, b))
  }

  /** Values with the same comma-free text are the same value. */
  ghost predicate TellsApart<V(!new)>(emit: V -> string) {
    forall v: V, w: V :: emit(v) == emit(w) && NoComma(emit(v)) ==> v == w
  }

  lemma LabelsWithoutOne<V>(emit: V -> string, a: seq<Label<V>>, i: nat)
    requires i < |a|
    ensures var rest := a[..i] + a[i + 1..];
            && multiset(a) == multiset(rest) + multiset{a[i]}
            && Rendered(emit, rest) == Rendered(emit, a)[..i] + Rendered(emit, a)[i + 1..]
  {
    assert a == a[..i] + [a[i]] + a[i + 1..];
  }

  /** If the texts tell the values apart, equal rendered sets come from equal label sets. */
  lemma {:induction false} SameLabels<V(!new)>(K: set<string>, emit: V -> string, a: seq<Label<V>>, b: seq<Label<V>>)
    requires TellsApart(emit) && Drawn(K, false, Rendered(emit, a))
    requires multiset(Rendered(emit, a)) == multiset(Rendered(emit, b))
    ensures multiset(a) == multiset(b)
    decreases |a|
  {
    if a == [] {
      assert |multiset(Rendered(emit, b))| == 0;
    } else {
      var i := Counterpart(K, emit, a, b);
      var rest, left := a[..0] + a[1..], b[..i] + b[i + 1..];
      LabelsWithoutOne(emit, a, 0);
      LabelsWithoutOne(emit, b, i);
      assert Drawn(K, false, Rendered(emit, rest));
      hide Rendered, Drawn, TellsApart;
      SameLabels(K, emit, rest, left);
    }
  }

  /** The first label of `a` has a counterpart in `b`; without the two the rest still match. */
  lemma Counterpart<V(!new)>(K: set<string>, emit: V -> string, a: seq<Label<V>>, b: seq<Label<V>>) returns (i: nat)
    requires TellsApart(emit) && Drawn(K, false, Rendered(emit, a)) && a != []
    requires multiset(Rendered(emit, a)) == multiset(Rendered(emit, b))
    ensures i < |b| && b[i] == a[0]
    ensures multiset(Rendered(emit, a[..0] + a[1..])) == multiset(Rendered(emit, b[..i] + b[i + 1..]))
  {
    var r, s := Rendered(emit, a), Rendered(emit, b);
    assert r[0] in multiset(s);
    i :| 0 <= i < |s| && s[i] == r[0];
    assert b[i] == a[0];
    LabelsWithoutOne(emit, a, 0);
    LabelsWithoutOne(emit, b, i);
    hide *;
    RestMatches(r, s, i);
  }

  lemma RestMatches(r: seq<Attribute>, s: seq<Attribute>, i: nat)
    requires multiset(r) == multiset(s) && r != [] && i < |s| && s[i] == r[0]
    ensures multiset(r[..0] + r[1..]) == multiset(s[..i] + s[i + 1..])
  {
    hide Part, Parts;
    WithoutOne(r, 0);
    WithoutOne(s, i);
    CancelOne(multiset(r[..0] + r[1..]), multiset(s[..i] + s[i + 1..]), r[0]);
  }

  lemma NotIdentifiedLabels<V(!new)>(K: set<string>, emit: V -> string, x: Label<V>, y: Label<V>)
    requires SameSeries(K, emit, [x], [y]) && x != y
    ensures !IdentifiesLabels(K, emit)
  {
    assert x in multiset([x]) && x !in multiset([y]);
  }

  lemma FirstKey<V>(K: set<string>, emit: V -> string, a: seq<Label<V>>)
    requires Drawn(K, false, Rendered(emit, a))
    ensures a != [] ==> a[0].key in K
  {
    if a != [] {
      assert Rendered(emit, a)[0].key == a[0].key;
    }
  }

  lemma RenderedOne<V>(emit: V -> string, x: Label<V>, p: Attribute)
    requires x.key == p.key && emit(x.value) == p.value
    ensures Rendered(emit, [x]) == [p]
  {}

  lemma KeysCollide<V(!new)>(K: set<string>, emit: V -> string, text: string -> V)
    requires (forall k :: k in K ==> NoComma(k)) && (forall s :: emit(text(s)) == s) && !PrefixSafe(K)
    ensures !IdentifiesLabels(K, emit)
  {
    var j, k :| j in K && k in K && j + "=" <= k;
    hide PrefixSafe, SeriesKey;
    var p, q := PrefixCollision(j, k);
    var x, y := Label(p.key, text(p.value)), Label(q.key, text(q.value));
    RenderedOne(emit, x, p);
    RenderedOne(emit, y, q);
    hide Rendered;
    NotIdentifiedLabels(K, emit, x, y);
  }

  lemma ValuesCollide<V(!new)>(K: set<string>, emit: V -> string)
    requires K != {} && !TellsApart(emit)
    ensures !IdentifiesLabels(K, emit)
  {
    var k :| k in K;
    var v, w :| emit(v) == emit(w) && NoComma(emit(v)) && v != w;
    assert Rendered(emit, [Label(k, v)]) == Rendered(emit, [Label(k, w)]);
    NotIdentifiedLabels(K, emit, Label(k, v), Label(k, w));
  }

  lemma SafeLabels<V(!new)>(K: set<string>, emit: V -> string)
    requires PrefixSafe(K) && TellsApart(emit)
    ensures IdentifiesLabels(K, emit)
  {
    PrefixSafeIdentifies(K);
    forall a: seq<Label<V>>, b: seq<Label<V>> | SameSeries(K, emit, a, b)
      ensures multiset(a) == multiset(b)
    {
      SameLabels(K, emit, a, b);
    }
  }

  /** Exactly when the series key identifies typed labels with comma-free keys and texts: there are
      no keys at all, or no key goes on with '=' to make another and the texts tell the values
      apart.  `text` makes the value that emits a given string. */
  lemma KeyIdentifiesLabels<V(!new)>(K: set<string>, emit: V -> string, text: string -> V)
    requires (forall k :: k in K ==> NoComma(k)) && forall s :: emit(text(s)) == s
    ensures IdentifiesLabels(K, emit) <==> K == {} || (PrefixSafe(K) && TellsApart(emit))
  {
    if K == {} {
      forall a: seq<Label<V>>, b: seq<Label<V>> | SameSeries(K, emit, a, b)
        ensures multiset(a) == multiset(b)
      {
        FirstKey(K, emit, a);
        FirstKey(K, emit, b);
      }
    } else if !PrefixSafe(K) {
      KeysCollide(K, emit, text);
    } else if !TellsApart(emit) {
      ValuesCollide(K, emit);
    } else {
      SafeLabels(K, emit);
    }
  }

  /** Some of the kinds of values that an attribute can have. */
  datatype Value = Text(s: string) | Int64(n: int) | Bool(b: bool)

  function Emit(v: Value): string {
    match v
    case Text(s) => s
    case Int64(n) => if n < 0 then "-" + Decimal(-n) else Decimal(n)
    case Bool(b) => if b then "true" else "false"
  }

  /** Already these kinds do not tell themselves apart: 1 and "1" are one series. */
  lemma KindsCollide(K: set<string>)
    requires forall k :: k in K ==> NoComma(k)
    ensures Emit(Int64(1)) == Emit(Text("1"))
    ensures IdentifiesLabels(K, Emit) <==> K == {}
  {
    assert Decimal(1) == "1";
    assert Int64(1) != Text("1");
    KeyIdentifiesLabels(K, Emit, s => Text(s));
  }
}
