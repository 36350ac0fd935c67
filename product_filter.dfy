/**
 * The product search side panel: a search box, category checkboxes with
 * parent categories that select or clear their subcategories, and a reset.
 * Every handler reports the new (query, categories, minimum rating) triple to
 * its parent.
 */
module ProductFilter {
  import opened Util
  import opened RowToggle

  datatype SubCategory = SubCategory(categoryId: string, categoryName: string)

  /** A top-level category of the category store. */
  datatype Category = Category(categoryId: string, categoryName: string, subCategories: seq<SubCategory>)

  /** The first category with the id, as `find` returns it. */
  function FindCategory(categories: seq<Category>, id: string): (r: Option<Category>)
    ensures r.Some? ==> r.value in categories && r.value.categoryId == id
    ensures r.None? <==> forall i :: 0 <= i < |categories| ==> categories[i].categoryId != id
  {
    if categories == [] then None
    else if categories[0].categoryId == id then Some(categories[0])
    else FindCategory(categories[1..], id)
  }

  /** `find` returns the first match: the category at the first index carrying the id, whatever follows it. */
  lemma {:induction false} FindCategoryIsFirst(categories: seq<Category>, id: string, i: nat)
    requires i < |categories| && categories[i].categoryId == id
    requires forall j :: 0 <= j < i ==> categories[j].categoryId != id
    ensures FindCategory(categories, id) == Some(categories[i])
    decreases i
  {
    if i > 0 {
      assert categories[0].categoryId != id;
      forall j | 0 <= j < i - 1
        ensures categories[1..][j].categoryId != id
      {
        assert categories[1..][j] == categories[j + 1];
      }
      FindCategoryIsFirst(categories[1..], id, i - 1);
      assert categories[1..][i - 1] == categories[i];
    }
  }

  /** The ids of a category's subcategories, in order. */
  function SubIds(c: Category): (ids: seq<string>)
    ensures |ids| == |c.subCategories|
    ensures forall i :: 0 <= i < |ids| ==> ids[i] == c.subCategories[i].categoryId
  {
    seq(|c.subCategories|, i requires 0 <= i < |c.subCategories| => c.subCategories[i].categoryId)
  }

  /** `find(...)?.subCategories.map(s => s.categoryId) || []`: an unknown parent has no subcategories. */
  function SubcategoryIds(categories: seq<Category>, parentId: string): (ids: seq<string>)
    ensures FindCategory(categories, parentId).None? ==> ids == []
    ensures FindCategory(categories, parentId).Some? ==> ids == SubIds(FindCategory(categories, parentId).value)
  {
    match FindCategory(categories, parentId)
    case None => []
    case Some(c) => SubIds(c)
  }

  /** The selection after a parent checkbox is clicked. */
  function ParentToggled(selected: seq<string>, parentId: string, subs: seq<string>): (r: seq<string>)
  {
    if parentId in selected then Filter(selected, (id: string) => id != parentId && id !in subs)
    else selected + [parentId] + Filter(subs, (id: string) => id !in selected)
  }

  /**
   * Clearing a selected parent removes it and every subcategory and keeps
   * every other id, in order.
   */
  lemma {:induction false} ParentClear(selected: seq<string>, parentId: string, subs: seq<string>, other: string)
    requires parentId in selected
    ensures parentId !in ParentToggled(selected, parentId, subs)
    ensures forall s :: s in subs ==> s !in ParentToggled(selected, parentId, subs)
    ensures other != parentId && other !in subs ==> (other in ParentToggled(selected, parentId, subs) <==> other in selected)
    ensures IsSubseq(ParentToggled(selected, parentId, subs), selected)
  {
    var keep := (id: string) => id != parentId && id !in subs;
    FilterMembership(selected, keep, parentId);
    FilterMembership(selected, keep, other);
    forall s | s in subs
      ensures s !in ParentToggled(selected, parentId, subs)
    {
      FilterMembership(selected, keep, s);
    }
    FilterIsSubseq(selected, keep);
  }

  /**
   * Selecting an unselected parent keeps the old selection as a prefix,
   * appends the parent and only the subcategories not yet selected, and leaves
   * the parent and all its subcategories selected.
   */
  lemma {:induction false} ParentSelect(selected: seq<string>, parentId: string, subs: seq<string>)
    requires parentId !in selected
    ensures ParentToggled(selected, parentId, subs)[..|selected| + 1] == selected + [parentId]
    ensures parentId in ParentToggled(selected, parentId, subs)
    ensures forall s :: s in subs ==> s in ParentToggled(selected, parentId, subs)
    ensures forall i :: |selected| + 1 <= i < |ParentToggled(selected, parentId, subs)| ==>
      ParentToggled(selected, parentId, subs)[i] in subs && ParentToggled(selected, parentId, subs)[i] !in selected
  {
    var unseen := (id: string) => id !in selected;
    var r := ParentToggled(selected, parentId, subs);
    assert r == selected + [parentId] + Filter(subs, unseen);
    assert r[|selected|] == parentId;
    forall s | s in subs
      ensures s in r
    {
      FilterMembership(subs, unseen, s);
    }
    forall i | |selected| + 1 <= i < |r|
      ensures r[i] in subs && r[i] !in selected
    {
      var x := r[i];
      assert x == Filter(subs, unseen)[i - |selected| - 1];
      FilterMembership(subs, unseen, x);
    }
  }

  /** A parent the category tree does not know toggles exactly like a single checkbox. */
  lemma UnknownParentIsPlainToggle(categories: seq<Category>, selected: seq<string>, parentId: string)
    requires forall i :: 0 <= i < |categories| ==> categories[i].categoryId != parentId
    ensures ParentToggled(selected, parentId, SubcategoryIds(categories, parentId)) == Toggled(selected, parentId)
  {
    var subs := SubcategoryIds(categories, parentId);
    assert subs == [];
    if parentId in selected {
      ToggledAsFilter(selected, parentId, (id: string) => id != parentId && id !in subs);
    } else {
      assert Filter(subs, (id: string) => id !in selected) == [];
    }
  }

  /** What the panel reports through `onFilterChange`. */
  datatype FilterChange = FilterChange(searchQuery: string, categories: seq<string>, minRating: int)

  const EmptyFilter := FilterChange("", [], 0)

  /** The reset button shows iff some filter is active. */
  predicate HasActiveFilters(searchQuery: string, selected: seq<string>, minRating: int)
  {
    searchQuery != "" || |selected| > 0 || minRating > 0
  }

  /** Exactly the empty filter is inactive. */
  lemma {:induction false} InactiveIffEmpty(f: FilterChange)
    requires f.minRating >= 0
    ensures !HasActiveFilters(f.searchQuery, f.categories, f.minRating) <==> f == EmptyFilter
  {
    if !HasActiveFilters(f.searchQuery, f.categories, f.minRating) {
      assert f.categories == [];
    }
  }

  class ProductFilterPanel {
    /** The category tree from the category store. */
    const categories: seq<Category>
    var searchQuery: string
    var selectedCategories: seq<string>
    /** Only ever set to 0: no control changes it. */
    var minRating: int
    /** Every `onFilterChange` call, oldest first. */
    var reported: seq<FilterChange>

    ghost predicate Valid()
      reads this
    {
      minRating == 0
    }

    constructor(tree: seq<Category>)
      ensures categories == tree && searchQuery == "" && selectedCategories == [] && minRating == 0
      ensures reported == []
      ensures Valid()
    {
      categories := tree;
      searchQuery := "";
      selectedCategories := [];
      minRating := 0;
      reported := [];
    }

    /** The current panel state, as it would be reported. */
    function Current(): FilterChange
      reads this
    {
      FilterChange(searchQuery, selectedCategories, minRating)
    }

    method ParentCategoryToggle(parentId: string)
      modifies this
      ensures selectedCategories == ParentToggled(old(selectedCategories), parentId, SubcategoryIds(categories, parentId))
      ensures searchQuery == old(searchQuery) && minRating == old(minRating)
      ensures reported == old(reported) + [Current()]
    {
      var subs := SubcategoryIds(categories, parentId);
      selectedCategories := ParentToggled(selectedCategories, parentId, subs);
      reported := reported + [FilterChange(searchQuery, selectedCategories, minRating)];
    }

    method CategoryToggle(categoryId: string)
      modifies this
      ensures selectedCategories == Toggled(old(selectedCategories), categoryId)
      ensures searchQuery == old(searchQuery) && minRating == old(minRating)
      ensures reported == old(reported) + [Current()]
    {
      selectedCategories := Toggled(selectedCategories, categoryId);
      reported := reported + [FilterChange(searchQuery, selectedCategories, minRating)];
    }

    method SearchChange(query: string)
      modifies this
      ensures searchQuery == query
      ensures selectedCategories == old(selectedCategories) && minRating == old(minRating)
      ensures reported == old(reported) + [Current()]
    {
      searchQuery := query;
      reported := reported + [FilterChange(searchQuery, selectedCategories, minRating)];
    }

    method Reset()
      modifies this
      ensures Current() == EmptyFilter && Valid()
      ensures !HasActiveFilters(searchQuery, selectedCategories, minRating)
      ensures reported == old(reported) + [EmptyFilter]
    {
      searchQuery := "";
      selectedCategories := [];
      minRating := 0;
      reported := reported + [EmptyFilter];
    }
  }
}
