/**
 The category filter shared by the two feature grids: a fixed catalogue of features,
 a row of five tabs ('all' and one per category) each labelled with a count, and the
 grid of features shown for the active tab.
 */
module CategoryFilter {

  datatype Option<T> = None | Some(value: T)

  datatype Category = Common | Agency | Studios | Chaos

  datatype Feature = Feature(
    title: string,
    description: string,
    icon: string,
    category: Category,
    gradient: string,
    backgroundImage: Option<string>)

  /** A tab key: 'all', or one of the four categories. */
  datatype Key = All | Only(category: Category)

  /** The active key when the section first renders. */
  const InitialKey: Key := All

  /** The features of `fs` whose category is `c`, in their order in `fs`. */
  function Filter(fs: seq<Feature>, c: Category): (r: seq<Feature>)
    ensures |r| <= |fs|
    ensures forall i :: 0 <= i < |r| ==> r[i].category == c
    ensures forall f :: f in r <==> f in fs && f.category == c
  {
    if fs == [] then []
    else (if fs[0].category == c then [fs[0]] else []) + Filter(fs[1..], c)
  }

  /** A single feature is kept exactly when it has the category; with `FilterConcat` this fixes the whole result. */
  lemma FilterSingleton(f: Feature, c: Category)
    ensures Filter([f], c) == if f.category == c then [f] else []
  {
    assert [f][1..] == [];
  }

  /** Filtering distributes over concatenation, so the relative order of the kept features is that of `fs`. */
  lemma {:induction false} FilterConcat(a: seq<Feature>, b: seq<Feature>, c: Category)
    ensures Filter(a + b, c) == Filter(a, c) + Filter(b, c)
  {
    if a == [] {
      assert a + b == b;
    } else {
      assert (a + b)[1..] == a[1..] + b;
      FilterConcat(a[1..], b, c);
    }
  }

  /** A list whose features all have category `c` passes the filter unchanged. */
  lemma {:induction false} FilterKeepsMatching(fs: seq<Feature>, c: Category)
    requires forall i :: 0 <= i < |fs| ==> fs[i].category == c
    ensures Filter(fs, c) == fs
  {
    if fs != [] {
      FilterKeepsMatching(fs[1..], c);
    }
  }

  /** A list with no feature of category `c` filters to nothing. */
  lemma {:induction false} FilterDropsOthers(fs: seq<Feature>, c: Category)
    requires forall i :: 0 <= i < |fs| ==> fs[i].category != c
    ensures Filter(fs, c) == []
  {
    if fs != [] {
      FilterDropsOthers(fs[1..], c);
    }
  }

  /** Every feature of `fs` has category `c`. */
  ghost predicate Block(fs: seq<Feature>, c: Category)
  {
    forall i :: 0 <= i < |fs| ==> fs[i].category == c
  }

  lemma {:induction false} FilterFourParts(a: seq<Feature>, b: seq<Feature>, c: seq<Feature>, d: seq<Feature>, cat: Category)
    ensures Filter(a + b + c + d, cat) == Filter(a, cat) + Filter(b, cat) + Filter(c, cat) + Filter(d, cat)
  {
    FilterConcat(a + b + c, d, cat);
    FilterConcat(a + b, c, cat);
    FilterConcat(a, b, cat);
  }

  /** A catalogue listed as a block per category, in the order common, agency, studios, chaos, filters to its blocks. */
  lemma {:induction false} FilterGrouped(a: seq<Feature>, b: seq<Feature>, c: seq<Feature>, d: seq<Feature>)
    requires Block(a, Common) && Block(b, Agency) && Block(c, Studios) && Block(d, Chaos)
    ensures Filter(a + b + c + d, Common) == a
    ensures Filter(a + b + c + d, Agency) == b
    ensures Filter(a + b + c + d, Studios) == c
    ensures Filter(a + b + c + d, Chaos) == d
  {
    FilterFourParts(a, b, c, d, Common);
    FilterKeepsMatching(a, Common);
    FilterDropsOthers(b, Common);
    FilterDropsOthers(c, Common);
    FilterDropsOthers(d, Common);
    FilterFourParts(a, b, c, d, Agency);
    FilterDropsOthers(a, Agency);
    FilterKeepsMatching(b, Agency);
    FilterDropsOthers(c, Agency);
    FilterDropsOthers(d, Agency);
    FilterFourParts(a, b, c, d, Studios);
    FilterDropsOthers(a, Studios);
    FilterDropsOthers(b, Studios);
    FilterKeepsMatching(c, Studios);
    FilterDropsOthers(d, Studios);
    FilterFourParts(a, b, c, d, Chaos);
    FilterDropsOthers(a, Chaos);
    FilterDropsOthers(b, Chaos);
    FilterDropsOthers(c, Chaos);
    FilterKeepsMatching(d, Chaos);
  }

  /** Filtering an already filtered list by the same category changes nothing. */
  lemma {:induction false} FilterIdempotent(fs: seq<Feature>, c: Category)
    ensures Filter(Filter(fs, c), c) == Filter(fs, c)
  {
    FilterKeepsMatching(Filter(fs, c), c);
  }

  /** The four categories partition the catalogue: their counts add up to its length. */
  lemma {:induction false} CategoryCountsSum(fs: seq<Feature>)
    ensures |Filter(fs, Common)| + |Filter(fs, Agency)| + |Filter(fs, Studios)| + |Filter(fs, Chaos)| == |fs|
  {
    if fs != [] {
      CategoryCountsSum(fs[1..]);
    }
  }

  /** The features shown for the active key (`filteredFeatures`). */
  function Shown(fs: seq<Feature>, active: Key): (r: seq<Feature>)
    ensures |r| <= |fs|
    ensures active == All ==> r == fs
    ensures active.Only? ==> forall f :: f in r <==> f in fs && f.category == active.category
  {
    if active == All then fs else Filter(fs, active.category)
  }

  /** 'all' shows the catalogue as it is; a category shows exactly its features, in order. */
  lemma ShownSelects(fs: seq<Feature>, active: Key)
    ensures active == All ==> Shown(fs, active) == fs
    ensures active.Only? ==> forall f :: f in Shown(fs, active) <==> f in fs && f.category == active.category
    ensures active.Only? ==> forall i :: 0 <= i < |Shown(fs, active)| ==> Shown(fs, active)[i].category == active.category
  {
  }

  /** The grid first shows the whole catalogue. */
  lemma InitiallyAll(fs: seq<Feature>)
    ensures InitialKey == All
    ensures Shown(fs, InitialKey) == fs
  {
  }

  /** Showing the shown list again for the same key changes nothing. */
  lemma {:induction false} ShownIdempotent(fs: seq<Feature>, active: Key)
    ensures Shown(Shown(fs, active), active) == Shown(fs, active)
  {
    if active.Only? {
      FilterIdempotent(fs, active.category);
    }
  }

  /** One filter button: its key, its caption and the count printed beside the caption. */
  datatype Tab = Tab(key: Key, caption: string, count: nat)

  /** The five filter buttons (`categories`). */
  function Tabs(fs: seq<Feature>): (tabs: seq<Tab>)
    ensures |tabs| == 5
    ensures tabs[0].key == All && tabs[1].key == Only(Common) && tabs[2].key == Only(Agency)
      && tabs[3].key == Only(Studios) && tabs[4].key == Only(Chaos)
    ensures forall i :: 0 <= i < |tabs| ==> tabs[i].count == |Shown(fs, tabs[i].key)|
  {
    [ Tab(All, "All Features", |fs|),
      Tab(Only(Common), "Common", |Filter(fs, Common)|),
      Tab(Only(Agency), "Agency", |Filter(fs, Agency)|),
      Tab(Only(Studios), "Studios", |Filter(fs, Studios)|),
      Tab(Only(Chaos), "Chaos", |Filter(fs, Chaos)|) ]
  }

  /** Every key has exactly one button, so the active key always names a button. */
  lemma TabsCoverKeys(fs: seq<Feature>, k: Key)
    ensures exists i :: 0 <= i < |Tabs(fs)| && Tabs(fs)[i].key == k
    ensures forall i, j :: 0 <= i < j < |Tabs(fs)| ==> Tabs(fs)[i].key != Tabs(fs)[j].key
  {
    match k
    case All => assert Tabs(fs)[0].key == k;
    case Only(c) =>
      match c
      case Common => assert Tabs(fs)[1].key == k;
      case Agency => assert Tabs(fs)[2].key == k;
      case Studios => assert Tabs(fs)[3].key == k;
      case Chaos => assert Tabs(fs)[4].key == k;
  }

  /** Each button's count is the number of features the grid shows once it is clicked; the four category counts sum to the 'all' count. */
  lemma {:induction false} TabCountsMatchShown(fs: seq<Feature>)
    ensures forall i :: 0 <= i < |Tabs(fs)| ==> Tabs(fs)[i].count == |Shown(fs, Tabs(fs)[i].key)|
    ensures Tabs(fs)[1].count + Tabs(fs)[2].count + Tabs(fs)[3].count + Tabs(fs)[4].count == Tabs(fs)[0].count
  {
    CategoryCountsSum(fs);
  }

  /** Clicking button `i` makes its key active; the grid then holds as many features as the button's count. */
  function Click(fs: seq<Feature>, i: nat): (active: Key)
    requires i < |Tabs(fs)|
    ensures active == Tabs(fs)[i].key
    ensures |Shown(fs, active)| == Tabs(fs)[i].count
  {
    Tabs(fs)[i].key
  }
}
