/**
 * The home page's session and role gate: who is signed in, whether that user is an
 * administrator, the featured products, the loading flag, and the admin dialogs. Answers of the
 * data store and the identity provider are inputs.
 */
module BanatIndex {
  import opened Wrappers

  const AdminRole := "admin"

  /** The signed-in user, as far as this page uses it. */
  datatype User = User(id: string, email: string)

  datatype Category = Category(id: string, name: string, slug: string, position: int, imageUrl: Option<string>)

  datatype IndexProduct = IndexProduct(
    id: string, name: string, description: Option<string>, price: int, imageUrl: Option<string>,
    category: Option<string>, isFeatured: bool, rating: real, ratingCount: int)

  /** A notification: title, description, error styling. */
  datatype Toast = Toast(title: string, description: string, destructive: bool)

  /** The `profiles` lookup: the row's `role` (absent row or `null` role both give `None`), or a thrown error. */
  datatype RoleLookup = RoleRow(role: Option<string>) | LookupThrew

  /** The products query: the rows (or `null`), or a failure (a returned error is rethrown). */
  datatype ProductsFetch = ProductRows(data: Option<seq<IndexProduct>>) | ProductsFailed

  /** `signOut`: success, or the error's message. */
  datatype SignOutResult = SignedOut | SignOutFailed(message: string)

  /** The page's state. */
  class IndexPage {
    var products: seq<IndexProduct>
    var user: Option<User>
    var isAdmin: bool
    var loading: bool
    var searchQuery: string
    var editingCategory: Option<Category>
    var isCategoryDialogOpen: bool
    var isProductDialogOpen: bool
    var toasts: seq<Toast>

    constructor ()
      ensures products == [] && user == None && !isAdmin && loading && searchQuery == ""
      ensures editingCategory == None && !isCategoryDialogOpen && !isProductDialogOpen && toasts == []
    {
      products, user, isAdmin, loading, searchQuery := [], None, false, true, "";
      editingCategory, isCategoryDialogOpen, isProductDialogOpen, toasts := None, false, false, [];
    }

    /**
     * The `onAuthStateChange` callback, given `session?.user`. With a user, the admin check is
     * deferred: the user it is scheduled for comes back in `adminCheck`. Without one, `isAdmin` is cleared.
     */
    method OnAuthStateChange(sessionUser: Option<User>) returns (adminCheck: Option<User>)
      modifies this
      ensures searchQuery == old(searchQuery)
      ensures user == sessionUser
      ensures adminCheck == sessionUser
      ensures sessionUser.None? ==> !isAdmin
      ensures sessionUser.Some? ==> isAdmin == old(isAdmin)
      ensures products == old(products) && loading == old(loading) && toasts == old(toasts)
      ensures editingCategory == old(editingCategory)
      ensures isCategoryDialogOpen == old(isCategoryDialogOpen) && isProductDialogOpen == old(isProductDialogOpen)
    {
      user := sessionUser;
      if sessionUser.Some? {
        adminCheck := sessionUser;
      } else {
        isAdmin := false;
        adminCheck := None;
      }
    }

    /** `checkUser` with the provider's current user: stored, and an admin check scheduled if there is one. `isAdmin` is not touched. */
    method CheckUser(current: Option<User>) returns (adminCheck: Option<User>)
      modifies this
      ensures searchQuery == old(searchQuery)
      ensures user == current && adminCheck == current && isAdmin == old(isAdmin)
      ensures products == old(products) && loading == old(loading) && toasts == old(toasts)
      ensures editingCategory == old(editingCategory)
      ensures isCategoryDialogOpen == old(isCategoryDialogOpen) && isProductDialogOpen == old(isProductDialogOpen)
    {
      user := current;
      adminCheck := current;
    }

    /** `checkIfAdmin`: administrator exactly when the role is `admin`; a thrown lookup changes nothing. */
    method CheckIfAdmin(lookup: RoleLookup)
      modifies this
      ensures searchQuery == old(searchQuery)
      ensures lookup.RoleRow? ==> isAdmin == (lookup.role == Some(AdminRole))
      ensures lookup.LookupThrew? ==> isAdmin == old(isAdmin)
      ensures user == old(user) && products == old(products) && loading == old(loading) && toasts == old(toasts)
      ensures editingCategory == old(editingCategory)
      ensures isCategoryDialogOpen == old(isCategoryDialogOpen) && isProductDialogOpen == old(isProductDialogOpen)
    {
      match lookup {
        case RoleRow(role) => isAdmin := role == Some(AdminRole);
        case LookupThrew =>
      }
    }

    /** `fetchProducts`: rows replace the list (`null` gives the empty list); a failure keeps it and notifies. `loading` ends false. */
    method FetchProducts(fetch: ProductsFetch)
      modifies this
      ensures searchQuery == old(searchQuery)
      ensures !loading
      ensures fetch.ProductRows? ==> products == fetch.data.GetOr([]) && toasts == old(toasts)
      ensures fetch.ProductsFailed? ==>
        products == old(products) && toasts == old(toasts) + [Toast("خطأ", "حدث خطأ في تحميل المنتجات", true)]
      ensures user == old(user) && isAdmin == old(isAdmin) && editingCategory == old(editingCategory)
      ensures isCategoryDialogOpen == old(isCategoryDialogOpen) && isProductDialogOpen == old(isProductDialogOpen)
    {
      match fetch {
        case ProductRows(data) => products := data.GetOr([]);
        case ProductsFailed => toasts := toasts + [Toast("خطأ", "حدث خطأ في تحميل المنتجات", true)];
      }
      loading := false;
    }

    /** `signOut`: success clears the user and the admin flag; a failure leaves both and shows its message. */
    method SignOut(result: SignOutResult)
      modifies this
      ensures searchQuery == old(searchQuery)
      ensures result.SignedOut? ==>
        user == None && !isAdmin && toasts == old(toasts) + [Toast("تم تسجيل الخروج", "تم تسجيل الخروج بنجاح", false)]
      ensures result.SignOutFailed? ==>
        user == old(user) && isAdmin == old(isAdmin) && toasts == old(toasts) + [Toast("خطأ", result.message, true)]
      ensures products == old(products) && loading == old(loading) && editingCategory == old(editingCategory)
      ensures isCategoryDialogOpen == old(isCategoryDialogOpen) && isProductDialogOpen == old(isProductDialogOpen)
    {
      match result {
        case SignedOut =>
          user := None;
          isAdmin := false;
          toasts := toasts + [Toast("تم تسجيل الخروج", "تم تسجيل الخروج بنجاح", false)];
        case SignOutFailed(message) =>
          toasts := toasts + [Toast("خطأ", message, true)];
      }
    }

    /** `handleAddCategory`: the dialog opens on no category. */
    method HandleAddCategory()
      modifies this
      ensures searchQuery == old(searchQuery)
      ensures editingCategory == None && isCategoryDialogOpen
      ensures user == old(user) && isAdmin == old(isAdmin) && products == old(products) && loading == old(loading)
      ensures isProductDialogOpen == old(isProductDialogOpen) && toasts == old(toasts)
    {
      editingCategory := None;
      isCategoryDialogOpen := true;
    }

    /** `handleEditCategory`: the dialog opens on the given category. */
    method HandleEditCategory(category: Category)
      modifies this
      ensures searchQuery == old(searchQuery)
      ensures editingCategory == Some(category) && isCategoryDialogOpen
      ensures user == old(user) && isAdmin == old(isAdmin) && products == old(products) && loading == old(loading)
      ensures isProductDialogOpen == old(isProductDialogOpen) && toasts == old(toasts)
    {
      editingCategory := Some(category);
      isCategoryDialogOpen := true;
    }

    /** `handleAddProduct`: the product dialog opens. */
    method HandleAddProduct()
      modifies this
      ensures searchQuery == old(searchQuery)
      ensures isProductDialogOpen
      ensures user == old(user) && isAdmin == old(isAdmin) && products == old(products) && loading == old(loading)
      ensures editingCategory == old(editingCategory) && isCategoryDialogOpen == old(isCategoryDialogOpen)
      ensures toasts == old(toasts)
    {
      isProductDialogOpen := true;
    }

    /** The dialogs' `onClose`: the category dialog closes, keeping the category it was opened on. */
    method CloseCategoryDialog()
      modifies this
      ensures !isCategoryDialogOpen && editingCategory == old(editingCategory)
      ensures user == old(user) && isAdmin == old(isAdmin) && isProductDialogOpen == old(isProductDialogOpen)
      ensures products == old(products) && loading == old(loading) && toasts == old(toasts)
      ensures searchQuery == old(searchQuery)
    {
      isCategoryDialogOpen := false;
    }

    /** The product dialog's `onClose`. */
    method CloseProductDialog()
      modifies this
      ensures !isProductDialogOpen
      ensures user == old(user) && isAdmin == old(isAdmin) && isCategoryDialogOpen == old(isCategoryDialogOpen)
      ensures editingCategory == old(editingCategory)
      ensures products == old(products) && loading == old(loading) && toasts == old(toasts)
      ensures searchQuery == old(searchQuery)
    {
      isProductDialogOpen := false;
    }

    /** The search field's `onChange`: only the query changes (the product grid does not read it). */
    method SetSearchQuery(value: string)
      modifies this
      ensures searchQuery == value
      ensures products == old(products) && user == old(user) && isAdmin == old(isAdmin) && loading == old(loading)
      ensures editingCategory == old(editingCategory) && isCategoryDialogOpen == old(isCategoryDialogOpen)
      ensures isProductDialogOpen == old(isProductDialogOpen) && toasts == old(toasts)
    {
      searchQuery := value;
    }

    /** The spinner replaces the page while the products, the categories or the settings load. */
    predicate ShowsLoadingView(categoriesLoading: bool, settingsLoading: bool)
      reads this
    {
      loading || categoriesLoading || settingsLoading
    }

    /** The `/admin` link: only on the loaded page, for a signed-in user with the admin flag. */
    predicate ShowsAdminLink(categoriesLoading: bool, settingsLoading: bool)
      reads this
    {
      !ShowsLoadingView(categoriesLoading, settingsLoading) && user.Some? && isAdmin
    }

    /** The sign-out button for a signed-in user, the sign-in link otherwise. */
    predicate ShowsSignOut(categoriesLoading: bool, settingsLoading: bool)
      reads this
    {
      !ShowsLoadingView(categoriesLoading, settingsLoading) && user.Some?
    }

    /** The add-product and add-category buttons: the admin flag alone decides. */
    predicate ShowsAddButtons(categoriesLoading: bool, settingsLoading: bool)
      reads this
    {
      !ShowsLoadingView(categoriesLoading, settingsLoading) && isAdmin
    }
  }

  /** After a sign-out that succeeded, no admin affordance is shown, whatever else is loading. */
  method SignOutHidesAdmin(page: IndexPage, categoriesLoading: bool, settingsLoading: bool)
    modifies page
    ensures !page.ShowsAdminLink(categoriesLoading, settingsLoading)
    ensures !page.ShowsAddButtons(categoriesLoading, settingsLoading)
    ensures !page.ShowsSignOut(categoriesLoading, settingsLoading)
  {
    page.SignOut(SignedOut);
  }

  /** A sign-in whose deferred role lookup answers `admin` shows the `/admin` link and the add buttons once loading is over. */
  method SignInAsAdmin(u: User) returns (page: IndexPage)
    ensures fresh(page)
    ensures page.user == Some(u) && page.isAdmin
    ensures page.ShowsAdminLink(false, false) && page.ShowsAddButtons(false, false)
  {
    page := new IndexPage();
    var adminCheck := page.OnAuthStateChange(Some(u));
    page.CheckIfAdmin(RoleRow(Some(AdminRole)));
    page.FetchProducts(ProductRows(None));
  }

  /**
   * The deferred admin check is not tied to the session it was scheduled for: when it answers
   * `admin` after a sign-out, the visitor is signed out but the add buttons, which test the admin
   * flag alone, are shown; the `/admin` link, which also tests the user, is not.
   */
  method StaleAdminCheck(u: User) returns (page: IndexPage)
    ensures fresh(page)
    ensures page.user == None && page.isAdmin
    ensures page.ShowsAddButtons(false, false) && !page.ShowsAdminLink(false, false)
  {
    page := new IndexPage();
    var adminCheck := page.OnAuthStateChange(Some(u));
    page.FetchProducts(ProductRows(None));
    page.SignOut(SignedOut);
    page.CheckIfAdmin(RoleRow(Some(AdminRole)));
  }
}
