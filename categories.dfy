/**
 * The categories page (src/pages/categories.jsx): the add dialog's state,
 * the trimmed-name gate of `onCreate`, the create and delete handlers that
 * refetch the list, and the name filter.
 */
module CategoriesPage {
  import opened Wrappers
  import opened Strings
  import opened Lists
  import opened Records
  import opened ResponseShape

  /** The toast `onCreate` shows for a blank name. */
  const NameRequired: Toast := Toast("Error", Some("Category name is required"), true)

  /** `!newName.trim()`: the name is blank. */
  predicate IsBlank(name: string) {
    Trim(name) == []
  }

  /** The Save button's `disabled`. */
  predicate SaveDisabled(createPending: bool, name: string) {
    createPending || IsBlank(name)
  }

  /** A name is blank exactly when it is all white space; a pending create disables Save whatever the name. */
  lemma SaveDisabledSpec(createPending: bool, name: string)
    ensures SaveDisabled(createPending, name) <==>
              createPending || forall k :: 0 <= k < |name| ==> IsJsSpace(name[k])
  {
    TrimEmptyIff(name);
  }

  /** `filteredCategories`: a category without a name never matches. */
  predicate NameMatches(c: Category, filter: string) {
    c.name.Some? && ContainsFolded(c.name.value, filter)
  }

  /** Only named categories whose name matches survive the filter. */
  function FilteredCategories(categories: seq<Category>, filter: string): (r: seq<Category>)
    ensures |r| <= |categories|
    ensures forall c :: c in r ==> c in categories && c.name.Some?
  {
    Filter(categories, c => NameMatches(c, filter))
  }

  lemma FilteredCategoriesSpec(categories: seq<Category>, filter: string)
    ensures forall c :: c in FilteredCategories(categories, filter) <==>
                        c in categories && c.name.Some? && ContainsFolded(c.name.value, filter)
    ensures IsSubsequence(FilteredCategories(categories, filter), categories)
    ensures FilteredCategories(categories, "") == Filter(categories, (c: Category) => c.name.Some?)
  {
    FilterSpec(categories, c => NameMatches(c, filter));
    FilterSamePredicate(categories, c => NameMatches(c, ""), (c: Category) => c.name.Some?);
  }

  class CategoriesPage {
    var isAddOpen: bool
    var newName: string
    var newIsActive: bool
    /** `createCategoryMutation.isPending`. */
    var createPending: bool
    const list: CollectionPage<Category>

    /** The initial state: the dialog closed and empty, the list loading. */
    constructor ()
      ensures !isAddOpen && newName == "" && newIsActive && !createPending
      ensures fresh(list) && list.items == [] && list.isLoading
      ensures list.errorText == "Failed to load categories" && !list.requireSuccess
    {
      isAddOpen := false;
      newName := "";
      newIsActive := true;
      createPending := false;
      list := new CollectionPage(true, "Failed to load categories", false);
    }

    /**
     * `onCreate`: a blank name gets an error toast and no request; otherwise
     * the mutation starts with the trimmed name and the chosen flag.
     */
    method OnCreate() returns (toast: Option<Toast>, payload: Option<Category>)
      modifies this
      ensures IsBlank(old(newName)) ==> toast == Some(NameRequired) && payload.None? && createPending == old(createPending)
      ensures !IsBlank(old(newName)) ==> toast.None? && payload == Some(Category(Some(Trim(old(newName))), old(newIsActive))) && createPending
      ensures isAddOpen == old(isAddOpen) && newName == old(newName) && newIsActive == old(newIsActive)
    {
      var trimmed := Trim(newName);
      if trimmed == [] {
        toast := Some(NameRequired);
        payload := None;
        return;
      }
      toast := None;
      payload := Some(Category(Some(trimmed), newIsActive));
      createPending := true;
    }

    /** Create `onSuccess`: close and reset the dialog, then refetch the list. */
    method OnCreateSuccess(refetch: AxiosResult<Category>) returns (toast: Toast, fetchToast: Option<Toast>)
      modifies this, list
      ensures toast == Toast("Category created successfully", None, false)
      ensures !isAddOpen && newName == "" && newIsActive && !createPending
      ensures !list.isLoading
      ensures refetch.Got? ==> list.items == list.Extract(refetch.body) && fetchToast.None?
      ensures refetch.Failed? ==> list.items == [] && fetchToast == Some(Toast("Error", Some(list.errorText), true))
    {
      toast := Toast("Category created successfully", None, false);
      isAddOpen := false;
      newName := "";
      newIsActive := true;
      createPending := false;
      fetchToast := list.Fetch(refetch);
    }

    /** Create `onError`: a toast with the best message available; the dialog keeps its contents. */
    method OnCreateError(e: AxiosError) returns (toast: Toast)
      modifies this
      ensures toast == Toast("Error", Some(ErrorDescription(e, "Failed to create category")), true)
      ensures isAddOpen == old(isAddOpen) && newName == old(newName) && newIsActive == old(newIsActive)
      ensures !createPending
    {
      toast := Toast("Error", Some(ErrorDescription(e, "Failed to create category")), true);
      createPending := false;
    }

    /** Delete `onSuccess`: a toast, then refetch the list. */
    method OnDeleteSuccess(refetch: AxiosResult<Category>) returns (toast: Toast, fetchToast: Option<Toast>)
      modifies list
      ensures toast == Toast("Category deleted successfully", None, false)
      ensures !list.isLoading
      ensures refetch.Got? ==> list.items == list.Extract(refetch.body) && fetchToast.None?
      ensures refetch.Failed? ==> list.items == [] && fetchToast == Some(Toast("Error", Some(list.errorText), true))
    {
      toast := Toast("Category deleted successfully", None, false);
      fetchToast := list.Fetch(refetch);
    }

    /** Delete `onError`. */
    method OnDeleteError(e: AxiosError) returns (toast: Toast)
      ensures toast == Toast("Error", Some(ErrorDescription(e, "Failed to delete category")), true)
    {
      toast := Toast("Error", Some(ErrorDescription(e, "Failed to delete category")), true);
    }

    /** The Cancel button: close and reset the dialog. */
    method Cancel()
      modifies this
      ensures !isAddOpen && newName == "" && newIsActive
      ensures createPending == old(createPending)
    {
      isAddOpen := false;
      newName := "";
      newIsActive := true;
    }
  }

  /** A payload `onCreate` sends has a name that is neither blank nor padded. */
  lemma PayloadNameIsTrimmed(newName: string)
    requires !IsBlank(newName)
    ensures Trim(Trim(newName)) == Trim(newName) && !IsBlank(Trim(newName))
  {
    TrimIdempotent(newName);
  }

  /** `onCreate` issues a request exactly when, with no create pending, Save is enabled. */
  lemma CreateGateMatchesSaveButton(newName: string)
    ensures !IsBlank(newName) <==> !SaveDisabled(false, newName)
  {
  }
}
