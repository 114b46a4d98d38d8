/** The ordered key/value documents the query builder produces (the MongoDB driver's
    BsonDocument), reduced to what the builder relies on: values, key order, and the
    three mutations `doc[k] = v`, `doc.Add(k, v)` and `doc.Remove(k)`. */
module Bson {
  import opened Wrappers

  /** A `double` or `float` of the source. The builder only carries and compares such
      values, so nothing but equality is assumed of them. */
  type Double(==, !new)

  datatype BsonValue =
    | Str(str: string)
    | Int(int32: int)
    | Num(number: Double)
    | Bool(boolean: bool)
    | Arr(items: seq<BsonValue>)
    | Doc(elements: seq<(string, BsonValue)>)

  type Element = (string, BsonValue)

  type Elements = seq<Element>

  /** The names of a document's elements, in document order. */
  function Keys(d: Elements): (ks: seq<string>)
    ensures |ks| == |d|
  {
    if d == [] then [] else [d[0].0] + Keys(d[1..])
  }

  /** The value of the first element named `k`, which is what `doc[k]` reads. */
  function Lookup(d: Elements, k: string): (r: Option<BsonValue>)
    ensures r.Some? <==> k in Keys(d)
    ensures r.Some? ==> (k, r.value) in d
  {
    if d == [] then None
    else if d[0].0 == k then Some(d[0].1)
    else Lookup(d[1..], k)
  }

  /** `doc[k] = v`: the value of an existing element is replaced where it stands;
      otherwise the element is appended. */
  function Assign(d: Elements, k: string, v: BsonValue): (r: Elements)
    ensures Keys(r) == if k in Keys(d) then Keys(d) else Keys(d) + [k]
    ensures Lookup(r, k) == Some(v)
    ensures forall k' :: k' != k ==> Lookup(r, k') == Lookup(d, k')
    ensures k !in Keys(d) ==> r == d + [(k, v)]
  {
    if d == [] then [(k, v)]
    else if d[0].0 == k then [(k, v)] + d[1..]
    else [d[0]] + Assign(d[1..], k, v)
  }

  /** The element `(k, v)` when `present` holds and nothing otherwise: what a guarded
      `if (present) doc.Add(k, v)` contributes to a document built in order. */
  function Entry(present: bool, k: string, v: BsonValue): (r: Elements)
    ensures Keys(r) == if present then [k] else []
  {
    if present then [(k, v)] else []
  }

  /** An entry holds no name but its own. */
  lemma EntryLacks(present: bool, k: string, v: BsonValue, other: string)
    requires other != k
    ensures other !in Keys(Entry(present, k, v))
  {
  }

  /** An entry looks up its own value when present, and nothing otherwise. */
  lemma LookupEntry(present: bool, k: string, v: BsonValue)
    ensures Lookup(Entry(present, k, v), k) == if present then Some(v) else None
  {
  }

  /** Appending elements without the name `k` does not change what `k` looks up. */
  lemma LookupPast(d: Elements, e: Elements, k: string)
    requires k !in Keys(e)
    ensures Lookup(d + e, k) == Lookup(d, k)
  {
    LookupAppend(d, e, k);
  }

  /** Behind elements without the name `k`, `k` looks up what follows them. */
  lemma LookupBehind(d: Elements, e: Elements, k: string)
    requires k !in Keys(d)
    ensures Lookup(d + e, k) == Lookup(e, k)
  {
    LookupAppend(d, e, k);
  }

  /** In five parts where each name occurs in its own part only, each name is found in its
      own part. */
  lemma {:induction false} FiveParts(e1: Elements, e2: Elements, e3: Elements, e4: Elements, e5: Elements,
                                      n1: string, n2: string, n3: string, n4: string, n5: string)
    requires n1 !in Keys(e2)
    requires n1 !in Keys(e3)
    requires n1 !in Keys(e4)
    requires n1 !in Keys(e5)
    requires n2 !in Keys(e1)
    requires n2 !in Keys(e3)
    requires n2 !in Keys(e4)
    requires n2 !in Keys(e5)
    requires n3 !in Keys(e1)
    requires n3 !in Keys(e2)
    requires n3 !in Keys(e4)
    requires n3 !in Keys(e5)
    requires n4 !in Keys(e1)
    requires n4 !in Keys(e2)
    requires n4 !in Keys(e3)
    requires n4 !in Keys(e5)
    requires n5 !in Keys(e1)
    requires n5 !in Keys(e2)
    requires n5 !in Keys(e3)
    requires n5 !in Keys(e4)
    ensures Lookup(e1 + e2 + e3 + e4 + e5, n1) == Lookup(e1, n1)
    ensures Lookup(e1 + e2 + e3 + e4 + e5, n2) == Lookup(e2, n2)
    ensures Lookup(e1 + e2 + e3 + e4 + e5, n3) == Lookup(e3, n3)
    ensures Lookup(e1 + e2 + e3 + e4 + e5, n4) == Lookup(e4, n4)
    ensures Lookup(e1 + e2 + e3 + e4 + e5, n5) == Lookup(e5, n5)
  {
    var x2, x3, x4 := e1 + e2, e1 + e2 + e3, e1 + e2 + e3 + e4;
    KeysAppend(e1, e2);
    KeysAppend(x2, e3);
    KeysAppend(x3, e4);
    LookupPast(x4, e5, n1);
    LookupPast(x3, e4, n1);
    LookupPast(x2, e3, n1);
    LookupPast(e1, e2, n1);
    LookupPast(x4, e5, n2);
    LookupPast(x3, e4, n2);
    LookupPast(x2, e3, n2);
    LookupBehind(e1, e2, n2);
    LookupPast(x4, e5, n3);
    LookupPast(x3, e4, n3);
    LookupBehind(x2, e3, n3);
    LookupPast(x4, e5, n4);
    LookupBehind(x3, e4, n4);
    LookupBehind(x4, e5, n5);
  }

  /** `doc.Remove(k)`: every element named `k` is dropped, the rest keep their order. */
  function Without(d: Elements, k: string): (r: Elements)
    ensures k !in Keys(r)
    ensures forall k' :: k' != k ==> Lookup(r, k') == Lookup(d, k')
    ensures forall e :: e in r <==> e in d && e.0 != k
    ensures k !in Keys(d) ==> r == d
  {
    if d == [] then []
    else if d[0].0 == k then Without(d[1..], k)
    else [d[0]] + Without(d[1..], k)
  }

  /** The names of a concatenation are the names of its parts, in order. */
  lemma {:induction false} KeysAppend(a: Elements, b: Elements)
    ensures Keys(a + b) == Keys(a) + Keys(b)
  {
    if a == [] {
      assert a + b == b;
    } else {
      var ab := a + b;
      assert ab[0] == a[0];
      assert ab[1..] == a[1..] + b;
      KeysAppend(a[1..], b);
      calc {
        Keys(ab);
        [a[0].0] + Keys(a[1..] + b);
        [a[0].0] + (Keys(a[1..]) + Keys(b));
        { assert [a[0].0] + (Keys(a[1..]) + Keys(b)) == ([a[0].0] + Keys(a[1..])) + Keys(b); }
        Keys(a) + Keys(b);
      }
    }
  }

  /** A name no element has is not among the names. */
  lemma {:induction false} AbsentName(d: Elements, k: string)
    requires forall i :: 0 <= i < |d| ==> d[i].0 != k
    ensures k !in Keys(d)
  {
    if d != [] {
      AbsentName(d[1..], k);
    }
  }

  /** A name is looked up in the first part of a concatenation that has it. */
  lemma {:induction false} LookupAppend(a: Elements, b: Elements, k: string)
    ensures Lookup(a + b, k) == if k in Keys(a) then Lookup(a, k) else Lookup(b, k)
  {
    if a == [] {
      assert a + b == b;
    } else if a[0].0 == k {
      assert (a + b)[0] == a[0];
      assert Keys(a)[0] == k;
    } else {
      var ab := a + b;
      assert ab[0] == a[0];
      assert ab[1..] == a[1..] + b;
      assert Lookup(ab, k) == Lookup(a[1..] + b, k);
      assert Lookup(a, k) == Lookup(a[1..], k);
      assert Keys(a) == [a[0].0] + Keys(a[1..]);
      assert (k in Keys(a)) == (k in Keys(a[1..]));
      LookupAppend(a[1..], b, k);
    }
  }

  /** `new BsonArray(strings.Select(t => new BsonString(t)))`: one string value per
      input string, in input order. */
  function StringArray(ss: seq<string>): (r: BsonValue)
    ensures r.Arr? && |r.items| == |ss|
    ensures forall i :: 0 <= i < |ss| ==> r.items[i] == Str(ss[i])
  {
    Arr(seq(|ss|, i requires 0 <= i < |ss| => Str(ss[i])))
  }

  /** The strings of an array of string values, or None for anything else. */
  function ReadStrings(items: seq<BsonValue>): (r: Option<seq<string>>)
  {
    if items == [] then Some([])
    else if !items[0].Str? then None
    else match ReadStrings(items[1..])
      case None => None
      case Some(rest) => Some([items[0].str] + rest)
  }

  /** Reading back a string array gives exactly the strings it was built from. */
  lemma {:induction false} ReadStringArray(ss: seq<string>)
    ensures ReadStrings(StringArray(ss).items) == Some(ss)
  {
    if ss != [] {
      var items := StringArray(ss).items;
      ReadStringArray(ss[1..]);
      assert items[1..] == StringArray(ss[1..]).items;
      assert items[0] == Str(ss[0]);
      assert [ss[0]] + ss[1..] == ss;
    }
  }

  /** A document whose state is changed in place. */
  class BsonDocument {
    var elements: Elements

    /** `new BsonDocument()` */
    constructor ()
      ensures elements == []
    {
      elements := [];
    }

    /** `new BsonDocument(name, value)` */
    constructor Of(k: string, v: BsonValue)
      ensures elements == [(k, v)]
    {
      elements := [(k, v)];
    }

    /** A document holding the given elements. */
    constructor FromElements(es: Elements)
      ensures elements == es
    {
      elements := es;
    }

    function Contains(k: string): bool
      reads this
    {
      k in Keys(elements)
    }

    function Value(): BsonValue
      reads this
    {
      Doc(elements)
    }

    /** `doc[k] = v` */
    method Set(k: string, v: BsonValue)
      modifies this
      ensures elements == Assign(old(elements), k, v)
    {
      elements := Assign(elements, k, v);
    }

    /** `doc.Add(k, v)`, which the driver refuses for a name already present. */
    method Add(k: string, v: BsonValue)
      requires k !in Keys(elements)
      modifies this
      ensures elements == old(elements) + [(k, v)]
    {
      elements := elements + [(k, v)];
    }

    /** `if (present) doc.Add(k, v)` */
    method AddIf(present: bool, k: string, v: BsonValue)
      requires present ==> k !in Keys(elements)
      modifies this
      ensures elements == old(elements) + Entry(present, k, v)
    {
      if present {
        Add(k, v);
      } else {
        assert elements + [] == elements;
      }
    }

    /** `if (present) doc[k] = v`, on a document that does not yet hold `k`. */
    method SetIf(present: bool, k: string, v: BsonValue)
      requires present ==> k !in Keys(elements)
      modifies this
      ensures elements == old(elements) + Entry(present, k, v)
    {
      if present {
        Set(k, v);
      } else {
        assert elements + [] == elements;
      }
    }

    /** `doc.Remove(k)` */
    method Remove(k: string)
      modifies this
      ensures elements == Without(old(elements), k)
    {
      elements := Without(elements, k);
    }
  }
}
