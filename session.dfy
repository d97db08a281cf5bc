/** The session builder of `startGame` (script.js:102-139): picking the pool
    from the catalog, the level and checkmark filters, the Fisher-Yates
    shuffle and the count limit. */
module Session {
  /** One catalog entry: the prompt (`ja`), the spelling to type (`en`) and
      its difficulty level. */
  datatype Item = Item(ja: string, en: string, level: int)

  /** A named category of the catalog. The catalog is the sequence of
      categories in the key order of the `medicalData` object. */
  datatype Category = Category(name: string, items: seq<Item>)

  /** The level radio button: `'all'` or one level. */
  datatype LevelFilter = AnyLevel | Level(n: int)

  /** The count radio button: `'all'` or a number of questions. */
  datatype CountLimit = AllWords | Limit(n: nat)

  /** The menu button that draws from every category. */
  const RandomCategory: string := "ランダム"

  /** The position of category `name` in the catalog, or -1 when there is none. */
  function IndexOf(catalog: seq<Category>, name: string): (k: int)
    ensures -1 <= k < |catalog|
    ensures k == -1 <==> forall i :: 0 <= i < |catalog| ==> catalog[i].name != name
    ensures k >= 0 ==> catalog[k].name == name && forall i :: 0 <= i < k ==> catalog[i].name != name
  {
    if catalog == [] then -1
    else if catalog[|catalog| - 1].name == name && IndexOf(catalog[..|catalog| - 1], name) == -1 then |catalog| - 1
    else IndexOf(catalog[..|catalog| - 1], name)
  }

  /** The items of every category, one category after the other
      (script.js:105). */
  function AllItems(catalog: seq<Category>): (r: seq<Item>)
    ensures forall x :: x in r <==> exists k :: 0 <= k < |catalog| && x in catalog[k].items
  {
    if catalog == [] then []
    else
      var init := catalog[..|catalog| - 1];
      var rest := AllItems(init);
      assert forall k :: 0 <= k < |init| ==> init[k] == catalog[k];
      rest + catalog[|catalog| - 1].items
  }

  /** The loop at script.js:105 that appends the items of every category, in
      catalog order, to one list. */
  method Concatenate(catalog: seq<Category>) returns (list: seq<Item>)
    ensures list == AllItems(catalog)
  {
    list := [];
    var k := 0;
    while k < |catalog|
      invariant 0 <= k <= |catalog|
      invariant list == AllItems(catalog[..k])
    {
      assert catalog[..k + 1][..k] == catalog[..k];
      list := list + catalog[k].items;
      k := k + 1;
    }
    assert catalog[..|catalog|] == catalog;
  }

  /** The keys of an object are distinct: no two categories share a name. */
  predicate DistinctNames(catalog: seq<Category>) {
    forall i, j :: 0 <= i < j < |catalog| ==> catalog[i].name != catalog[j].name
  }

  /** With distinct names the lookup finds the one category of that name. */
  lemma IndexOfUnique(catalog: seq<Category>, k: nat)
    requires DistinctNames(catalog) && k < |catalog|
    ensures IndexOf(catalog, catalog[k].name) == k
  {
  }

  /** Replacing the items of one category keeps the names distinct. */
  lemma RenewKeepsDistinct(catalog: seq<Category>, k: nat, items: seq<Item>)
    requires DistinctNames(catalog) && k < |catalog|
    ensures DistinctNames(catalog[k := Category(catalog[k].name, items)])
  {
    var c := catalog[k := Category(catalog[k].name, items)];
    assert forall i :: 0 <= i < |c| ==> c[i].name == catalog[i].name;
  }

  /** A category the menu can start: the random button or an existing key. */
  predicate Startable(catalog: seq<Category>, category: string) {
    category == RandomCategory || IndexOf(catalog, category) >= 0
  }

  /** The list before filtering (script.js:103-108): for the random button
      every item of every category, even when a category has that name;
      otherwise the items of the category with that name. */
  function Gather(catalog: seq<Category>, category: string): (r: seq<Item>)
    requires Startable(catalog, category)
    ensures category == RandomCategory ==>
      forall x :: x in r <==> exists k :: 0 <= k < |catalog| && x in catalog[k].items
    ensures category != RandomCategory ==>
      exists k :: 0 <= k < |catalog| && catalog[k].name == category && r == catalog[k].items &&
                  forall i :: 0 <= i < k ==> catalog[i].name != category
  {
    if category == RandomCategory then AllItems(catalog) else catalog[IndexOf(catalog, category)].items
  }

  /** Keeps the items whose level is the chosen one, in order (script.js:115). */
  function ByLevel(items: seq<Item>, n: int): (r: seq<Item>)
    ensures |r| <= |items|
    ensures forall x {:trigger multiset(r)[x]} :: multiset(r)[x] == if x.level == n then multiset(items)[x] else 0
  {
    if items == [] then []
    else
      var init := items[..|items| - 1];
      var last := items[|items| - 1];
      assert items == init + [last];
      ByLevel(init, n) + (if last.level == n then [last] else [])
  }

  /** Keeps the items whose spelling is checked, in order (script.js:119). */
  function ByChecked(items: seq<Item>, checked: set<string>): (r: seq<Item>)
    ensures |r| <= |items|
    ensures forall x {:trigger multiset(r)[x]} :: multiset(r)[x] == if x.en in checked then multiset(items)[x] else 0
  {
    if items == [] then []
    else
      var init := items[..|items| - 1];
      var last := items[|items| - 1];
      assert items == init + [last];
      ByChecked(init, checked) + (if last.en in checked then [last] else [])
  }

  /** Whether an item passes the level filter and, in check mode, the
      checkmark filter. */
  predicate Selected(x: Item, level: LevelFilter, checkMode: bool, checked: set<string>) {
    (level.Level? ==> x.level == level.n) && (checkMode ==> x.en in checked)
  }

  /** The candidate pool of a session (script.js:103-120): every item of the
      chosen category (or of all of them) that passes the filters, each as
      often as it occurs there. */
  function Pool(catalog: seq<Category>, category: string, level: LevelFilter, checkMode: bool, checked: set<string>): (r: seq<Item>)
    requires Startable(catalog, category)
    ensures forall x {:trigger multiset(r)[x]} :: multiset(r)[x] == (if Selected(x, level, checkMode, checked)
                                          then multiset(Gather(catalog, category))[x] else 0)
  {
    var list := Gather(catalog, category);
    var list := if level.Level? then ByLevel(list, level.n) else list;
    if checkMode then ByChecked(list, checked) else list
  }

  /** The list of `startGame` up to the emptiness test (script.js:103-120). */
  method BuildPool(catalog: seq<Category>, category: string, level: LevelFilter, checkMode: bool,
                   checked: set<string>) returns (list: seq<Item>)
    requires Startable(catalog, category)
    ensures list == Pool(catalog, category, level, checkMode, checked)
  {
    if category == RandomCategory {
      list := Concatenate(catalog);
    } else {
      list := catalog[IndexOf(catalog, category)].items;
    }
    if level.Level? {
      list := ByLevel(list, level.n);
    }
    if checkMode {
      list := ByChecked(list, checked);
    }
  }

  /** Check mode with no checked item in the gathered list leaves nothing:
      the session refuses to start. */
  lemma NoCheckedNoPool(catalog: seq<Category>, category: string, level: LevelFilter, checked: set<string>)
    requires Startable(catalog, category)
    requires forall x :: x in Gather(catalog, category) ==> x.en !in checked
    ensures Pool(catalog, category, level, true, checked) == []
  {
    var r := Pool(catalog, category, level, true, checked);
    assert multiset(r) == multiset{};
  }

  /** `Math.random` as an injected oracle: the index drawn when the shuffle
      loop is at `i` lies in `[0, i]`. */
  ghost predicate Draws(rand: nat -> nat) {
    forall i: nat :: rand(i) <= i
  }

  /** Exchanges the elements at `i` and `j` (script.js:129). */
  function Swap<T>(s: seq<T>, i: nat, j: nat): seq<T>
    requires i < |s| && j < |s|
  {
    s[i := s[j]][j := s[i]]
  }

  /** A swap keeps the length and the multiset of the list. */
  lemma SwapPermutes<T>(s: seq<T>, i: nat, j: nat)
    requires i < |s| && j < |s|
    ensures |Swap(s, i, j)| == |s| && multiset(Swap(s, i, j)) == multiset(s)
  {
  }

  /** The list after the iterations `i, i - 1, ..., 1` of the shuffle loop
      (script.js:127-130). */
  function ShuffleDown<T>(s: seq<T>, rand: nat -> nat, i: int): (r: seq<T>)
    requires Draws(rand) && i < |s|
    ensures |r| == |s|
    decreases i
  {
    if i <= 0 then s else ShuffleDown(Swap(s, i, rand(i)), rand, i - 1)
  }

  /** The whole Fisher-Yates loop, from the last index down to 1. */
  function Shuffled<T>(s: seq<T>, rand: nat -> nat): seq<T>
    requires Draws(rand)
  {
    ShuffleDown(s, rand, |s| - 1)
  }

  /** Every run of the shuffle loop, whatever the oracle draws, permutes its
      list: no item is lost, none is duplicated. */
  lemma {:induction false} ShuffleDownPermutes<T>(s: seq<T>, rand: nat -> nat, i: int)
    requires Draws(rand) && i < |s|
    ensures multiset(ShuffleDown(s, rand, i)) == multiset(s)
    decreases i
  {
    if i > 0 {
      SwapPermutes(s, i, rand(i));
      ShuffleDownPermutes(Swap(s, i, rand(i)), rand, i - 1);
    }
  }

  /** The shuffled pool is a permutation of the pool. */
  lemma ShuffledPermutes<T>(s: seq<T>, rand: nat -> nat)
    requires Draws(rand)
    ensures |Shuffled(s, rand)| == |s| && multiset(Shuffled(s, rand)) == multiset(s)
  {
    ShuffleDownPermutes(s, rand, |s| - 1);
  }

  /** The shuffle loop run in place on the array (script.js:127-130). */
  method Shuffle<T>(a: array<T>, rand: nat -> nat)
    requires Draws(rand)
    modifies a
    ensures a[..] == Shuffled(old(a[..]), rand)
  {
    var i := a.Length - 1;
    while i > 0
      invariant -1 <= i < a.Length
      invariant ShuffleDown(a[..], rand, i) == Shuffled(old(a[..]), rand)
      decreases i
    {
      var j := rand(i);
      ghost var before := a[..];
      a[i], a[j] := a[j], a[i];
      assert a[..] == Swap(before, i, j);
      i := i - 1;
    }
  }

  /** The shuffle applied to a list held in a fresh array. */
  method ShuffleList<T>(list: seq<T>, rand: nat -> nat) returns (r: seq<T>)
    requires Draws(rand)
    ensures r == Shuffled(list, rand)
  {
    var a := new T[|list|](i requires 0 <= i < |list| => list[i]);
    assert a[..] == list;
    Shuffle(a, rand);
    r := a[..];
  }

  /** The count limit (script.js:132-134): the first `n` items when there
      are more than `n`, otherwise the whole list. */
  function Take<T>(s: seq<T>, count: CountLimit): (r: seq<T>)
    ensures |r| == if count.Limit? && count.n < |s| then count.n else |s|
    ensures r == s[..|r|]
  {
    if count.Limit? && |s| > count.n then s[..count.n] else s
  }

  /** The queue of a session holds `min(n, count)` items (all `n` for
      `'all'`), each drawn from the pool, none more often than it occurs
      there. */
  lemma QueueFromPool(pool: seq<Item>, rand: nat -> nat, count: CountLimit)
    requires Draws(rand)
    ensures var q := Take(Shuffled(pool, rand), count);
      |q| == (if count.Limit? && count.n < |pool| then count.n else |pool|) &&
      multiset(q) <= multiset(pool)
  {
    var s := Shuffled(pool, rand);
    ShuffledPermutes(pool, rand);
    var q := Take(s, count);
    assert s == q + s[|q|..];
    assert multiset(s) == multiset(q) + multiset(s[|q|..]);
  }
}
