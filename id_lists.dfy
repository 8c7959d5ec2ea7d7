/** Operations on lists of records keyed by a string `id`, shared by the
    ingredient list and the step list of the recipe editor:
    `list.filter(x => x.id !== id)`, `list.map(x => x.id === id ? f(x) : x)`,
    and the choice of the id for a new row. */
module IdLists {
  import opened JsText

  /** The ids of a list, in order. */
  function Ids<T>(xs: seq<T>, key: T -> string): (r: seq<string>)
    ensures |r| == |xs| && forall i :: 0 <= i < |xs| ==> r[i] == key(xs[i])
    decreases |xs|
  {
    if xs == [] then [] else Ids(xs[..|xs| - 1], key) + [key(xs[|xs| - 1])]
  }

  /** No two rows share an id. */
  predicate UniqueIds<T>(xs: seq<T>, key: T -> string)
  {
    forall i, j :: 0 <= i < j < |xs| ==> key(xs[i]) != key(xs[j])
  }

  /** How many rows carry `id`. */
  function CountId<T>(xs: seq<T>, key: T -> string, id: string): (n: nat)
    ensures n <= |xs|
    decreases |xs|
  {
    if xs == [] then 0
    else CountId(xs[..|xs| - 1], key, id) + (if key(xs[|xs| - 1]) == id then 1 else 0)
  }

  // ----------------------------------------------------------- filter by id

  /** `xs.filter(x => x.id !== id)`. */
  function Without<T(!new)>(xs: seq<T>, key: T -> string, id: string): (r: seq<T>)
    ensures forall x :: x in r <==> x in xs && key(x) != id
    ensures |r| == |xs| - CountId(xs, key, id)
    decreases |xs|
  {
    if xs == [] then []
    else
      var rest := Without(xs[..|xs| - 1], key, id);
      assert xs == xs[..|xs| - 1] + [xs[|xs| - 1]];
      if key(xs[|xs| - 1]) == id then rest else rest + [xs[|xs| - 1]]
  }

  /** Filtering distributes over concatenation, so the rows that stay keep
      their relative order. */
  lemma {:induction false} WithoutConcat<T(!new)>(a: seq<T>, b: seq<T>, key: T -> string, id: string)
    ensures Without(a + b, key, id) == Without(a, key, id) + Without(b, key, id)
    decreases |b|
  {
    if b == [] {
      assert a + b == a;
    } else {
      var b' := b[..|b| - 1];
      assert (a + b)[..|a + b| - 1] == a + b';
      assert (a + b)[|a + b| - 1] == b[|b| - 1];
      WithoutConcat(a, b', key, id);
    }
  }

  /** Filtering a list whose ids are unique leaves them unique. */
  lemma {:induction false} WithoutUnique<T(!new)>(xs: seq<T>, key: T -> string, id: string)
    requires UniqueIds(xs, key)
    ensures UniqueIds(Without(xs, key, id), key)
    decreases |xs|
  {
    if xs != [] {
      var init, last := xs[..|xs| - 1], xs[|xs| - 1];
      assert UniqueIds(init, key);
      WithoutUnique(init, key, id);
      var rest := Without(init, key, id);
      forall i | 0 <= i < |rest| ensures key(rest[i]) != key(last) {
        assert rest[i] in init;
        var k :| 0 <= k < |init| && init[k] == rest[i];
        assert xs[k] == init[k];
      }
    }
  }

  /** Removing an id that no row carries changes nothing. */
  lemma {:induction false} WithoutAbsent<T(!new)>(xs: seq<T>, key: T -> string, id: string)
    requires forall i :: 0 <= i < |xs| ==> key(xs[i]) != id
    ensures Without(xs, key, id) == xs
    decreases |xs|
  {
    if xs != [] {
      WithoutAbsent(xs[..|xs| - 1], key, id);
      assert xs == xs[..|xs| - 1] + [xs[|xs| - 1]];
    }
  }

  /** In a list with unique ids an id occurs at most once. */
  lemma {:induction false} CountUnique<T>(xs: seq<T>, key: T -> string, id: string)
    requires UniqueIds(xs, key)
    ensures CountId(xs, key, id) <= 1
    ensures CountId(xs, key, id) == 1 <==> exists i :: 0 <= i < |xs| && key(xs[i]) == id
    decreases |xs|
  {
    if xs != [] {
      var init := xs[..|xs| - 1];
      assert UniqueIds(init, key);
      CountUnique(init, key, id);
    }
  }

  // ------------------------------------------------------- update matching

  /** `xs.map(x => x.id === id ? f(x) : x)`. */
  function MapMatching<T>(xs: seq<T>, key: T -> string, id: string, f: T -> T): (r: seq<T>)
    ensures |r| == |xs|
    ensures forall i :: 0 <= i < |xs| && key(xs[i]) != id ==> r[i] == xs[i]
    ensures forall i :: 0 <= i < |xs| && key(xs[i]) == id ==> r[i] == f(xs[i])
  {
    seq(|xs|, i requires 0 <= i < |xs| => if key(xs[i]) == id then f(xs[i]) else xs[i])
  }

  // ------------------------------------------------------------ new ids

  /** An id read as a number: its digits' value, or 0 for an id that is not
      all digits. */
  function IdNumber(id: string): nat
  {
    if AllDigits(id) then DigitsValue(id) else 0
  }

  /** An upper bound of the numbers of all ids of the list. */
  function MaxIdNumber(ids: seq<string>): (m: nat)
    ensures forall i :: 0 <= i < |ids| ==> IdNumber(ids[i]) <= m
    decreases |ids|
  {
    if ids == [] then 0
    else
      var m := MaxIdNumber(ids[..|ids| - 1]);
      var last := IdNumber(ids[|ids| - 1]);
      if m < last then last else m
  }

  /** The id a new row should get so that it clashes with no existing row:
      one more than the largest numeric id in the list. */
  function FreshId(ids: seq<string>): (r: string)
    ensures r !in ids
  {
    var k := MaxIdNumber(ids) + 1;
    DecimalRoundTrip(k);
    Decimal(k)
  }

  /** The ids "1", "2", …, "n" in order: what a list holds as long as rows are
      only ever appended. */
  function Numbered(n: nat): (r: seq<string>)
    ensures |r| == n && forall i :: 0 <= i < n ==> r[i] == Decimal(i + 1)
  {
    seq(n, i requires 0 <= i < n => Decimal(i + 1))
  }

  /** On a list numbered "1" … "n", the fresh id is String(n + 1), the id the
      recipe editor picks with `String(list.length + 1)`. */
  lemma {:induction false} FreshIdOnNumbered(n: nat)
    ensures MaxIdNumber(Numbered(n)) == n
    ensures FreshId(Numbered(n)) == Decimal(n + 1)
  {
    if n > 0 {
      assert Numbered(n)[..n - 1] == Numbered(n - 1);
      FreshIdOnNumbered(n - 1);
      DecimalRoundTrip(n);
    }
  }
}
