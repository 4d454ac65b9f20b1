/** The shopping-cart store: a list of entries, each a copy of an added item
    tagged with a `cartId`; entries are appended, removed by `cartId`, or all
    cleared, and the cart's total is the sum of the entries' prices. */
module CartStore {
  import opened JsValues

  const CartIdKey: string := "cartId"
  const PriceKey: string := "price"

  /** The entry `addItem` pushes: every field of `item`, then `cartId` set to
      the fresh id. The spread comes first, so an existing `cartId` of the
      item is overwritten. */
  function Tagged(item: Object, id: int): (e: Object)
    ensures Field(e, CartIdKey) == Num(id)
    ensures forall k :: k != CartIdKey ==> Field(e, k) == Field(item, k)
    ensures e.Keys == item.Keys + {CartIdKey}
  {
    item[CartIdKey := Num(id)]
  }

  /** Whether `filter(item => item.cartId !== id)` keeps the entry. */
  predicate Keeps(e: Object, id: Value)
  {
    Field(e, CartIdKey) != id
  }

  /** `items.filter(item => item.cartId !== id)`. */
  function Without(s: seq<Object>, id: Value): (r: seq<Object>)
    ensures |r| <= |s|
    ensures forall e :: e in r <==> e in s && Keeps(e, id)
  {
    if s == [] then []
    else (if Keeps(s[0], id) then [s[0]] else []) + Without(s[1..], id)
  }

  /** The entries the same filter drops: those whose `cartId` is `id`. */
  function WithCartId(s: seq<Object>, id: Value): (r: seq<Object>)
    ensures |r| <= |s|
    ensures forall e :: e in r <==> e in s && !Keeps(e, id)
  {
    if s == [] then []
    else (if Keeps(s[0], id) then [] else [s[0]]) + WithCartId(s[1..], id)
  }

  /** What one entry adds to the total: `item.price || 0` as an operand of `+`.
      A falsy price adds 0, `true` adds 1, a number adds itself and a
      non-empty string turns the sum into a string. */
  function PriceTerm(e: Object): (t: Sum)
    ensures !Truthy(Field(e, PriceKey)) ==> t == Amount(0)
    ensures t == if HasTextPrice(e) then Concatenated else Amount(PriceAmount(e))
  {
    match Or(Field(e, PriceKey), Num(0))
    case Num(n) => Amount(n)
    case Bool(b) => Amount(if b then 1 else 0)
    case Str(_) => Concatenated
    // `||` with a truthy right operand never yields null or undefined
    case Null => Amount(0)
    case Undefined => Amount(0)
  }

  /** `items.reduce((sum, item) => sum + (item.price || 0), 0)`: a left fold,
      so the last entry is added last. */
  function TotalOf(s: seq<Object>): (r: Sum)
    decreases |s|
    ensures s == [] ==> r == Amount(0)
    ensures r.Concatenated? <==> exists e :: e in s && HasTextPrice(e)
  {
    if s == [] then Amount(0)
    else
      var init, last := s[..|s| - 1], s[|s| - 1];
      assert s == init + [last];
      Plus(TotalOf(init), PriceTerm(last))
  }

  // ----- A reference definition of the total, independent of the fold -----

  /** An entry whose price is a non-empty string. */
  predicate HasTextPrice(e: Object)
  {
    Field(e, PriceKey).Str? && Field(e, PriceKey).s != ""
  }

  /** The number an entry's price stands for: a number is itself, `true` is 1,
      anything else is 0. */
  function PriceAmount(e: Object): (r: int)
  {
    match Field(e, PriceKey)
    case Num(n) => n
    case Bool(b) => if b then 1 else 0
    case _ => 0
  }

  /** The plain arithmetic sum of the entries' price amounts. */
  function PriceSum(s: seq<Object>): (r: int)
  {
    if s == [] then 0 else PriceAmount(s[0]) + PriceSum(s[1..])
  }

  // ----- The total -----

  /** The total distributes over concatenation of entry lists. */
  lemma {:induction false} TotalOfConcat(a: seq<Object>, b: seq<Object>)
    ensures TotalOf(a + b) == Plus(TotalOf(a), TotalOf(b))
    decreases |b|
  {
    if b == [] {
      assert a + b == a;
      PlusZero(TotalOf(a));
    } else {
      var b', e := b[..|b| - 1], b[|b| - 1];
      assert (a + b)[..|a + b| - 1] == a + b';
      assert (a + b)[|a + b| - 1] == e;
      TotalOfConcat(a, b');
      PlusAssociative(TotalOf(a), TotalOf(b'), PriceTerm(e));
    }
  }

  /** The total is the sum of the price amounts, unless some entry has a
      non-empty string price, in which case the result is a string. The empty
      list totals 0. */
  lemma {:induction false} TotalOfIsPriceSum(s: seq<Object>)
    ensures TotalOf(s) == if exists e :: e in s && HasTextPrice(e)
                          then Concatenated else Amount(PriceSum(s))
  {
    if s != [] {
      var head, tail := s[0], s[1..];
      assert s == [head] + tail;
      TotalOfCons(head, tail);
      TotalOfIsPriceSum(tail);
      assert (exists e :: e in s && HasTextPrice(e))
         <==> HasTextPrice(head) || exists e :: e in tail && HasTextPrice(e);
    }
  }

  // ----- removeItem -----

  /** Filtering distributes over concatenation: the survivors keep their
      relative order. */
  lemma {:induction false} WithoutConcat(a: seq<Object>, b: seq<Object>, id: Value)
    ensures Without(a + b, id) == Without(a, id) + Without(b, id)
  {
    if a != [] {
      assert (a + b)[0] == a[0];
      assert (a + b)[1..] == a[1..] + b;
      WithoutConcat(a[1..], b, id);
    } else {
      assert a + b == b;
    }
  }

  /** The list is left unchanged exactly when no entry carries `id`; otherwise
      it gets strictly shorter. */
  lemma {:induction false} WithoutUnchanged(s: seq<Object>, id: Value)
    ensures Without(s, id) == s <==> forall e :: e in s ==> Keeps(e, id)
    ensures |Without(s, id)| == |s| <==> forall e :: e in s ==> Keeps(e, id)
  {
    if s != [] {
      WithoutUnchanged(s[1..], id);
      assert s == [s[0]] + s[1..];
      if !Keeps(s[0], id) {
        assert s[0] !in Without(s, id);
      }
    }
  }

  /** Removing the same `cartId` twice is the same as removing it once. */
  lemma {:induction false} WithoutIdempotent(s: seq<Object>, id: Value)
    ensures Without(Without(s, id), id) == Without(s, id)
  {
    WithoutUnchanged(Without(s, id), id);
  }

  /** Removals by two ids may be done in either order. */
  lemma {:induction false} WithoutCommutes(s: seq<Object>, a: Value, b: Value)
    ensures Without(Without(s, a), b) == Without(Without(s, b), a)
  {
    if s != [] {
      WithoutCommutes(s[1..], a, b);
      var head := s[0];
      WithoutConcat(if Keeps(head, a) then [head] else [], Without(s[1..], a), b);
      WithoutConcat(if Keeps(head, b) then [head] else [], Without(s[1..], b), a);
    }
  }

  /** Folding a list that starts with `head`. */
  lemma TotalOfCons(head: Object, tail: seq<Object>)
    ensures TotalOf([head] + tail) == Plus(PriceTerm(head), TotalOf(tail))
  {
    TotalOfConcat([head], tail);
    assert [head][..0] == [];
    PlusZero(PriceTerm(head));
  }

  /** Removing an id lowers the total by exactly the prices of the entries
      that carried it. */
  lemma {:induction false} TotalAfterRemove(s: seq<Object>, id: Value)
    ensures TotalOf(s) == Plus(TotalOf(Without(s, id)), TotalOf(WithCartId(s, id)))
  {
    if s == [] {
      PlusZero(Amount(0));
    } else {
      var head, tail := s[0], s[1..];
      assert s == [head] + tail;
      TotalOfCons(head, tail);
      TotalAfterRemove(tail, id);
      var p, tw, tc := PriceTerm(head), TotalOf(Without(tail, id)), TotalOf(WithCartId(tail, id));
      if Keeps(head, id) {
        assert Without(s, id) == [head] + Without(tail, id);
        assert WithCartId(s, id) == WithCartId(tail, id);
        TotalOfCons(head, Without(tail, id));
        PlusAssociative(p, tw, tc);
      } else {
        assert Without(s, id) == Without(tail, id);
        assert WithCartId(s, id) == [head] + WithCartId(tail, id);
        TotalOfCons(head, WithCartId(tail, id));
        PlusAssociative(p, tw, tc);
        PlusCommutative(p, tw);
        PlusAssociative(tw, p, tc);
      }
    }
  }

  /** The filter and its complement split the list: together they hold
      every entry exactly as often as the list does. */
  lemma {:induction false} WithoutSplits(s: seq<Object>, id: Value)
    ensures multiset(Without(s, id)) + multiset(WithCartId(s, id)) == multiset(s)
    ensures |Without(s, id)| + |WithCartId(s, id)| == |s|
  {
    if s != [] {
      WithoutSplits(s[1..], id);
      assert s == [s[0]] + s[1..];
    }
  }

  // ----- addItem -----

  /** Tagging does not touch the price, so the new entry adds what the item's
      own price adds. */
  lemma TaggedPrice(item: Object, id: int)
    ensures PriceTerm(Tagged(item, id)) == PriceTerm(item)
  {
    assert Field(Tagged(item, id), PriceKey) == Field(item, PriceKey);
  }

  /** Adding an item under an id no entry carries, then removing that id,
      gives back the original list. */
  lemma {:induction false} AddThenRemove(s: seq<Object>, item: Object, id: int)
    requires forall e :: e in s ==> Keeps(e, Num(id))
    ensures Without(s + [Tagged(item, id)], Num(id)) == s
  {
    WithoutConcat(s, [Tagged(item, id)], Num(id));
    WithoutUnchanged(s, Num(id));
    assert Without([Tagged(item, id)], Num(id)) == [];
  }

  /** The cart store: one mutable list of entries. */
  class Cart {
    var items: seq<Object>

    /** Every entry came from `addItem`, so it carries a numeric `cartId`. */
    ghost predicate Valid()
      reads this
    {
      forall e :: e in items ==> Field(e, CartIdKey).Num?
    }

    /** The store starts with `items: []`. */
    constructor ()
      ensures Valid() && items == []
    {
      items := [];
    }

    /** The `total` getter. */
    function Total(): (t: Sum)
      reads this
      ensures items == [] ==> t == Amount(0)
      ensures t.Concatenated? <==> exists e :: e in items && HasTextPrice(e)
    {
      TotalOf(items)
    }

    /** `addItem(item)`, with the generated `cartId` passed in as `id`. */
    method AddItem(item: Object, id: int)
      requires Valid()
      modifies this
      ensures Valid()
      ensures items == old(items) + [Tagged(item, id)]
      ensures |items| == |old(items)| + 1 && items[..|old(items)|] == old(items)
      ensures Total() == Plus(old(Total()), PriceTerm(item))
    {
      var entry := Tagged(item, id);
      ghost var before := items;
      items := items + [entry];
      assert items[..|items| - 1] == before;
      TaggedPrice(item, id);
    }

    /** `removeItem(cartId)`. */
    method RemoveItem(cartId: Value)
      requires Valid()
      modifies this
      ensures Valid()
      ensures items == Without(old(items), cartId)
      ensures forall e :: e in items ==> Field(e, CartIdKey) != cartId
      ensures |items| <= |old(items)|
      ensures items == old(items) <==> forall e :: e in old(items) ==> Field(e, CartIdKey) != cartId
      ensures !cartId.Num? ==> items == old(items)
      ensures old(Total()) == Plus(Total(), TotalOf(WithCartId(old(items), cartId)))
    {
      ghost var before := items;
      items := Without(items, cartId);
      WithoutUnchanged(before, cartId);
      TotalAfterRemove(before, cartId);
    }

    /** `clearCart()`. */
    method ClearCart()
      requires Valid()
      modifies this
      ensures Valid() && items == [] && Total() == Amount(0)
    {
      items := [];
    }
  }
}
