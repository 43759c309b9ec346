/** The experiment catalogue of the start screen: categories in the order they were first
    seen, each holding its experiments in five parallel lists kept in `compareTo` order of
    their titles. The views (grid, headline, icons drawn on screen) are not modelled. */
module ExperimentCatalogue {
  import opened Wrappers
  import opened JavaStrings

  /** An experiment's icon: a text icon drawn from at most three characters, or an image
      decoded from base64 data (the decoding itself is not modelled). */
  datatype Icon = TextIcon(text: string) | ImageIcon(base64: string)

  /** One experiment as the list shows it: the entries of the five parallel lists at one
      index. */
  datatype Entry = Entry(icon: Icon, title: string, info: string, xmlFile: string, isAsset: bool)

  // ---------------------------------------------------------------------------------------
  // Alphabetical insertion

  /** Titles in `compareTo` order. */
  predicate Sorted(titles: seq<string>)
  {
    forall i, j :: 0 <= i < j < |titles| ==> CompareTo(titles[i], titles[j]) <= 0
  }

  /** The scan of `addExperiment`: the first index whose title is not before `title`, or
      the end of the list when there is none. */
  function InsertionIndex(titles: seq<string>, title: string): (i: nat)
    ensures i <= |titles|
    ensures forall j :: 0 <= j < i ==> CompareTo(titles[j], title) < 0
    ensures i < |titles| ==> CompareTo(titles[i], title) >= 0
  {
    if |titles| == 0 || CompareTo(titles[0], title) >= 0 then 0
    else 1 + InsertionIndex(titles[1..], title)
  }

  /** `Vector.insertElementAt(x, i)`: `x` at index `i`, the elements from `i` on shifted
      by one. */
  function Insert<T>(xs: seq<T>, i: nat, x: T): (r: seq<T>)
    requires i <= |xs|
    ensures |r| == |xs| + 1 && r[i] == x
    ensures forall j :: 0 <= j < i ==> r[j] == xs[j]
    ensures forall j :: i < j < |r| ==> r[j] == xs[j - 1]
  {
    xs[..i] + [x] + xs[i..]
  }

  /** Inserting adds exactly the one element. */
  lemma InsertMultiset<T>(xs: seq<T>, i: nat, x: T)
    requires i <= |xs|
    ensures multiset(Insert(xs, i, x)) == multiset(xs) + multiset{x}
  {
    assert xs == xs[..i] + xs[i..];
  }

  /** Inserting at the scanned index keeps the titles sorted. */
  lemma InsertKeepsSorted(titles: seq<string>, title: string)
    requires Sorted(titles)
    ensures Sorted(Insert(titles, InsertionIndex(titles, title), title))
  {
    var i := InsertionIndex(titles, title);
    var r := Insert(titles, i, title);
    forall a, b | 0 <= a < b < |r|
      ensures CompareTo(r[a], r[b]) <= 0
    {
      if b == i {
        assert CompareTo(titles[a], title) < 0;
      } else if a == i {
        // title, then titles[b - 1] with b - 1 >= i
        CompareToAntisymmetric(titles[i], title);
        if b - 1 > i {
          CompareToTransitive(title, titles[i], titles[b - 1]);
        }
      } else if a < i < b {
        CompareToAntisymmetric(titles[i], title);
        assert CompareTo(titles[a], title) < 0;
        if b - 1 > i {
          CompareToTransitive(title, titles[i], titles[b - 1]);
        }
        CompareToTransitive(titles[a], title, titles[b - 1]);
      }
    }
  }

  /** A title equal to one already listed is placed before the first such entry. */
  lemma EqualTitleGoesFirst(titles: seq<string>, title: string, j: int)
    requires 0 <= j < |titles| && titles[j] == title
    ensures InsertionIndex(titles, title) <= j
  {
    CompareToZeroIffEqual(title, title);
  }

  /** The titles of a list of entries. */
  function Titles(es: seq<Entry>): (ts: seq<string>)
    ensures |ts| == |es| && forall i :: 0 <= i < |es| ==> ts[i] == es[i].title
  {
    seq(|es|, i requires 0 <= i < |es| => es[i].title)
  }

  /** One experiment added to a category's list, at its alphabetical place. */
  function InsertEntry(es: seq<Entry>, e: Entry): seq<Entry>
  {
    Insert(es, InsertionIndex(Titles(es), e.title), e)
  }

  /** The titles after adding an entry are the old titles with the new title inserted. */
  lemma TitlesInsertEntry(es: seq<Entry>, e: Entry)
    ensures Titles(InsertEntry(es, e)) == Insert(Titles(es), InsertionIndex(Titles(es), e.title), e.title)
  {
  }

  // ---------------------------------------------------------------------------------------
  // The adapter of one category

  /** `experimentItemAdapter`: five parallel lists, one entry per experiment. */
  class ExperimentItemAdapter {
    var icons: seq<Icon>
    var titles: seq<string>
    var infos: seq<string>
    var xmlFiles: seq<string>
    var isAssetList: seq<bool>

    /** The lists have one length, and the titles are in order. */
    ghost predicate Valid()
      reads this
    {
      |icons| == |titles| == |infos| == |xmlFiles| == |isAssetList| && Sorted(titles)
    }

    /** The experiments, one entry per index. */
    function Entries(): (es: seq<Entry>)
      reads this
      requires |icons| == |titles| == |infos| == |xmlFiles| == |isAssetList|
      ensures Titles(es) == titles
    {
      Zip(icons, titles, infos, xmlFiles, isAssetList)
    }

    constructor()
      ensures Valid() && Entries() == []
    {
      icons, titles, infos, xmlFiles, isAssetList := [], [], [], [], [];
    }

    /** `addExperiment`: the experiment goes in front of the first title that is not
        before it, in all five lists alike. */
    method AddExperiment(icon: Icon, title: string, info: string, xmlFile: string, isAsset: bool)
      requires Valid()
      modifies this
      ensures Valid()
      ensures Entries() == InsertEntry(old(Entries()), Entry(icon, title, info, xmlFile, isAsset))
    {
      var i := FindInsertionIndex(title);
      InsertKeepsSorted(titles, title);
      ZipInsert(icons, titles, infos, xmlFiles, isAssetList, i, Entry(icon, title, info, xmlFile, isAsset));
      icons := Insert(icons, i, icon);
      titles := Insert(titles, i, title);
      infos := Insert(infos, i, info);
      xmlFiles := Insert(xmlFiles, i, xmlFile);
      isAssetList := Insert(isAssetList, i, isAsset);
    }

    /** The loop of `addExperiment`: it stops at the first title that is not before
        `title`. */
    method FindInsertionIndex(title: string) returns (i: nat)
      ensures i == InsertionIndex(titles, title)
    {
      i := 0;
      while i < |titles|
        invariant 0 <= i <= |titles|
        invariant forall j :: 0 <= j < i ==> CompareTo(titles[j], title) < 0
      {
        if CompareTo(titles[i], title) >= 0 {
          break;
        }
        i := i + 1;
      }
      InsertionIndexIsFirst(titles, title, i);
    }
  }

  /** The five parallel lists read index by index. */
  function Zip(icons: seq<Icon>, titles: seq<string>, infos: seq<string>, xmlFiles: seq<string>,
               isAssets: seq<bool>): (es: seq<Entry>)
    requires |icons| == |titles| == |infos| == |xmlFiles| == |isAssets|
    ensures |es| == |titles|
    ensures forall i :: 0 <= i < |es| ==> es[i] == Entry(icons[i], titles[i], infos[i], xmlFiles[i], isAssets[i])
    ensures Titles(es) == titles
  {
    seq(|titles|, i requires 0 <= i < |titles| => Entry(icons[i], titles[i], infos[i], xmlFiles[i], isAssets[i]))
  }

  /** Inserting into each of the five lists at one index inserts one entry there. */
  lemma ZipInsert(icons: seq<Icon>, titles: seq<string>, infos: seq<string>, xmlFiles: seq<string>,
                  isAssets: seq<bool>, i: nat, e: Entry)
    requires |icons| == |titles| == |infos| == |xmlFiles| == |isAssets| && i <= |titles|
    ensures Zip(Insert(icons, i, e.icon), Insert(titles, i, e.title), Insert(infos, i, e.info),
                Insert(xmlFiles, i, e.xmlFile), Insert(isAssets, i, e.isAsset))
            == Insert(Zip(icons, titles, infos, xmlFiles, isAssets), i, e)
  {
  }

  /** The index the loop stops at is the one the scan describes. */
  lemma {:induction false} InsertionIndexIsFirst(titles: seq<string>, title: string, i: int)
    requires 0 <= i <= |titles|
    requires forall j :: 0 <= j < i ==> CompareTo(titles[j], title) < 0
    requires i < |titles| ==> CompareTo(titles[i], title) >= 0
    ensures InsertionIndex(titles, title) == i
  {
    if i > 0 {
      InsertionIndexIsFirst(titles[1..], title, i - 1);
    }
  }

  // ---------------------------------------------------------------------------------------
  // Categories

  /** A category's name and its experiments, as values. */
  datatype CategoryContents = CategoryContents(name: string, entries: seq<Entry>)

  /** The loop of the outer `addExperiment`: the first category with the given name. */
  function FindCategory(cats: seq<CategoryContents>, cat: string): (r: Option<nat>)
    ensures r.Some? ==> r.value < |cats| && cats[r.value].name == cat
                        && forall j :: 0 <= j < r.value ==> cats[j].name != cat
    ensures r.None? ==> forall j :: 0 <= j < |cats| ==> cats[j].name != cat
  {
    if |cats| == 0 then None
    else if cats[0].name == cat then Some(0)
    else
      var r := FindCategory(cats[1..], cat);
      if r.Some? then Some(r.value + 1) else None
  }

  /** The outer `addExperiment` on values: into the first category of that name, or into a
      new category appended at the end. */
  function AddToCatalogue(cats: seq<CategoryContents>, cat: string, e: Entry): (r: seq<CategoryContents>)
    ensures |r| == |cats| || |r| == |cats| + 1
    // a category is added exactly when none has that name yet
    ensures |r| == |cats| + 1 <==> forall j :: 0 <= j < |cats| ==> cats[j].name != cat
    // the existing categories keep their names and places
    ensures forall j :: 0 <= j < |cats| ==> r[j].name == cats[j].name
    ensures |r| == |cats| + 1 ==> r[|cats|] == CategoryContents(cat, [e])
  {
    match FindCategory(cats, cat)
    case Some(k) => cats[k := cats[k].(entries := InsertEntry(cats[k].entries, e))]
    case None => cats + [CategoryContents(cat, [e])]
  }

  predicate UniqueNames(cats: seq<CategoryContents>)
  {
    forall i, j :: 0 <= i < j < |cats| ==> cats[i].name != cats[j].name
  }

  predicate AllSorted(cats: seq<CategoryContents>)
  {
    forall i :: 0 <= i < |cats| ==> Sorted(Titles(cats[i].entries))
  }

  /** Category names stay unique: a name already present is never added again. */
  lemma AddKeepsNamesUnique(cats: seq<CategoryContents>, cat: string, e: Entry)
    requires UniqueNames(cats)
    ensures UniqueNames(AddToCatalogue(cats, cat, e))
  {
  }

  /** Every category stays in title order. */
  lemma AddKeepsSorted(cats: seq<CategoryContents>, cat: string, e: Entry)
    requires AllSorted(cats)
    ensures AllSorted(AddToCatalogue(cats, cat, e))
  {
    var k := FindCategory(cats, cat);
    if k.Some? {
      var es := cats[k.value].entries;
      TitlesInsertEntry(es, e);
      InsertKeepsSorted(Titles(es), e.title);
    } else {
      assert Titles([e]) == [e.title];
    }
  }

  /** The experiment ends up in the category of its name, which keeps its place; every
      other category is unchanged, and a new category only ever comes last. */
  lemma AddPlacesEntry(cats: seq<CategoryContents>, cat: string, e: Entry)
    ensures var r := AddToCatalogue(cats, cat, e);
            && (exists k :: 0 <= k < |r| && r[k].name == cat && e in r[k].entries)
            && |r| == |cats| + (if FindCategory(cats, cat).Some? then 0 else 1)
            && (forall j :: 0 <= j < |cats| && cats[j].name != cat ==> r[j] == cats[j])
            && (forall j :: 0 <= j < |cats| ==> r[j].name == cats[j].name)
  {
    var r := AddToCatalogue(cats, cat, e);
    var k := FindCategory(cats, cat);
    if k.Some? {
      var es := cats[k.value].entries;
      var i := InsertionIndex(Titles(es), e.title);
      assert InsertEntry(es, e)[i] == e;
      assert e in r[k.value].entries;
    } else {
      assert e in r[|cats|].entries;
    }
  }

  /** The number of experiments listed grows by exactly one. */
  function EntryCount(cats: seq<CategoryContents>): nat
  {
    if |cats| == 0 then 0 else |cats[0].entries| + EntryCount(cats[1..])
  }

  lemma {:induction false} EntryCountAppend(cats: seq<CategoryContents>, c: CategoryContents)
    ensures EntryCount(cats + [c]) == EntryCount(cats) + |c.entries|
  {
    if |cats| > 0 {
      assert (cats + [c])[1..] == cats[1..] + [c];
      EntryCountAppend(cats[1..], c);
    } else {
      assert (cats + [c])[1..] == [];
    }
  }

  lemma {:induction false} EntryCountUpdate(cats: seq<CategoryContents>, k: nat, c: CategoryContents)
    requires k < |cats|
    ensures EntryCount(cats[k := c]) == EntryCount(cats) - |cats[k].entries| + |c.entries|
  {
    if k > 0 {
      assert cats[k := c][1..] == cats[1..][k - 1 := c];
      EntryCountUpdate(cats[1..], k - 1, c);
    } else {
      assert cats[k := c][1..] == cats[1..];
    }
  }

  lemma AddCountsOne(cats: seq<CategoryContents>, cat: string, e: Entry)
    ensures EntryCount(AddToCatalogue(cats, cat, e)) == EntryCount(cats) + 1
  {
    var k := FindCategory(cats, cat);
    if k.Some? {
      EntryCountUpdate(cats, k.value, cats[k.value].(entries := InsertEntry(cats[k.value].entries, e)));
    } else {
      EntryCountAppend(cats, CategoryContents(cat, [e]));
    }
  }

  /** `category`: a name and the adapter of its experiments. */
  class Category {
    const name: string
    const experiments: ExperimentItemAdapter

    constructor(name: string)
      ensures this.name == name && fresh(experiments)
      ensures experiments.Valid() && experiments.Entries() == []
    {
      this.name := name;
      experiments := new ExperimentItemAdapter();
    }

    /** `hasName`: string equality with the category's name. */
    predicate HasName(cat: string)
    {
      cat == name
    }

    /** The category's `addExperiment` hands the experiment to its adapter. */
    method AddExperiment(exp: string, image: Icon, description: string, xmlFile: string, isAsset: bool)
      requires experiments.Valid()
      modifies experiments
      ensures experiments.Valid()
      ensures experiments.Entries() == InsertEntry(old(experiments.Entries()), Entry(image, exp, description, xmlFile, isAsset))
    {
      experiments.AddExperiment(image, exp, description, xmlFile, isAsset);
    }
  }

  /** The activity's list of categories. */
  class ExperimentList {
    var categories: seq<Category>

    /** The adapters of the categories, in order. */
    function Adapters(): (adapters: seq<ExperimentItemAdapter>)
      reads this
      ensures |adapters| == |categories| && forall i :: 0 <= i < |adapters| ==> adapters[i] == categories[i].experiments
    {
      var cs := categories;
      seq(|cs|, i requires 0 <= i < |cs| => cs[i].experiments)
    }

    /** Each category has its own adapter and its own name, and every adapter is valid. */
    ghost predicate Valid()
      reads this, Adapters()
    {
      && (forall i, j :: 0 <= i < j < |categories| ==> categories[i].experiments != categories[j].experiments)
      && (forall i, j :: 0 <= i < j < |categories| ==> categories[i].name != categories[j].name)
      && (forall i :: 0 <= i < |categories| ==> categories[i].experiments.Valid())
    }

    /** The catalogue as values. */
    ghost function Contents(): (cats: seq<CategoryContents>)
      reads this, Adapters()
      requires Valid()
      ensures |cats| == |categories| && UniqueNames(cats) && AllSorted(cats)
      ensures forall i :: 0 <= i < |cats| ==> cats[i] == CategoryContents(categories[i].name, categories[i].experiments.Entries())
    {
      seq(|categories|, i reads this, Adapters() requires 0 <= i < |categories| && Valid() =>
        CategoryContents(categories[i].name, categories[i].experiments.Entries()))
    }

    constructor()
      ensures Valid() && Contents() == []
    {
      categories := [];
    }

    /** The outer `addExperiment`: the experiment goes to the first category of that name,
        or to a new category appended at the end. */
    method AddExperiment(exp: string, cat: string, image: Icon, description: string, xmlFile: string, isAsset: bool)
      requires Valid()
      modifies this`categories, Adapters()
      ensures Valid()
      ensures Contents() == AddToCatalogue(old(Contents()), cat, Entry(image, exp, description, xmlFile, isAsset))
    {
      ghost var before := Contents();
      ghost var e := Entry(image, exp, description, xmlFile, isAsset);
      var i := 0;
      while i < |categories|
        invariant 0 <= i <= |categories|
        invariant forall j :: 0 <= j < i ==> !categories[j].HasName(cat)
      {
        if categories[i].HasName(cat) {
          assert FindCategory(before, cat) == Some(i) by {
            FindCategoryIsFirst(before, cat, i);
          }
          AddToExisting(i, exp, image, description, xmlFile, isAsset);
          return;
        }
        i := i + 1;
      }
      assert FindCategory(before, cat).None?;
      AddNewCategory(exp, cat, image, description, xmlFile, isAsset);
    }

    /** The found branch: only the adapter of category `k` changes. */
    method AddToExisting(k: nat, exp: string, image: Icon, description: string, xmlFile: string, isAsset: bool)
      requires Valid() && k < |categories|
      modifies categories[k].experiments
      ensures Valid()
      ensures Contents() == old(Contents())[k := CategoryContents(categories[k].name,
                InsertEntry(old(Contents())[k].entries, Entry(image, exp, description, xmlFile, isAsset)))]
    {
      ghost var before := Contents();
      categories[k].AddExperiment(exp, image, description, xmlFile, isAsset);
      assert forall j :: 0 <= j < |categories| && j != k ==> categories[j].experiments != categories[k].experiments;
    }

    /** The not-found branch: a new category with this one experiment, appended last. */
    method AddNewCategory(exp: string, cat: string, image: Icon, description: string, xmlFile: string, isAsset: bool)
      requires Valid() && forall j :: 0 <= j < |categories| ==> categories[j].name != cat
      modifies this`categories
      ensures Valid()
      ensures Contents() == old(Contents()) + [CategoryContents(cat, [Entry(image, exp, description, xmlFile, isAsset)])]
    {
      ghost var before := Contents();
      ghost var olds := categories;
      var c := NewCategoryWith(cat, exp, image, description, xmlFile, isAsset);
      categories := categories + [c];
      assert Valid() by {
        assert forall j :: 0 <= j < |olds| ==> categories[j] == olds[j];
      }
      assert Contents() == before + [CategoryContents(cat, [Entry(image, exp, description, xmlFile, isAsset)])] by {
        assert forall j :: 0 <= j < |olds| ==> categories[j] == olds[j];
        assert forall j :: 0 <= j < |before| ==> Contents()[j] == before[j];
      }
    }
  }

  /** `new category(cat, ...)` followed by its `addExperiment`. */
  method NewCategoryWith(cat: string, exp: string, image: Icon, description: string, xmlFile: string, isAsset: bool)
    returns (c: Category)
    ensures fresh(c) && fresh(c.experiments) && c.name == cat
    ensures c.experiments.Valid() && c.experiments.Entries() == [Entry(image, exp, description, xmlFile, isAsset)]
  {
    c := new Category(cat);
    c.AddExperiment(exp, image, description, xmlFile, isAsset);
  }

  /** The loop's stopping index is the first category of that name. */
  lemma {:induction false} FindCategoryIsFirst(cats: seq<CategoryContents>, cat: string, i: nat)
    requires i < |cats| && cats[i].name == cat
    requires forall j :: 0 <= j < i ==> cats[j].name != cat
    ensures FindCategory(cats, cat) == Some(i)
  {
    if i > 0 {
      FindCategoryIsFirst(cats[1..], cat, i - 1);
    }
  }
}
