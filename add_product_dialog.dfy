/**
 * `AddProductDialog` (src/components/products/add-product-dialog.jsx): the
 * image gate of `handleFileSelect`, the categories fetched with the stricter
 * normaliser, and the reset that success and cancel share.
 */
module AddProductDialog {
  import opened Wrappers
  import opened Strings
  import opened Records
  import opened ResponseShape
  import JsValues

  /** `10 * 1024 * 1024`: the largest accepted image, in bytes. */
  const MaxImageBytes: int := 10 * 1024 * 1024

  /** A picked file: its size in bytes and its MIME type. */
  datatype File = File(size: int, mimeType: string)

  const TooLarge: Toast := Toast("File too large", Some("Please select an image smaller than 10MB"), true)
  const NotAnImage: Toast := Toast("Invalid file type", Some("Please select an image file"), true)

  /** Why a file is refused, if it is: the size is checked before the type. */
  function Rejection(f: File): (r: Option<Toast>)
    ensures r.None? <==> f.size <= MaxImageBytes && StartsWith(f.mimeType, "image/")
    ensures f.size > MaxImageBytes ==> r == Some(TooLarge)
    ensures f.size <= MaxImageBytes && !StartsWith(f.mimeType, "image/") ==> r == Some(NotAnImage)
  {
    if f.size > MaxImageBytes then Some(TooLarge)
    else if !StartsWith(f.mimeType, "image/") then Some(NotAnImage)
    else None
  }

  /** An image of exactly 10 MiB is accepted; one byte more is refused. */
  lemma SizeLimitIsInclusive(mimeType: string)
    requires StartsWith(mimeType, "image/")
    ensures Rejection(File(10485760, mimeType)).None?
    ensures Rejection(File(10485761, mimeType)) == Some(TooLarge)
  {
  }

  /** An oversized file is reported as too large even when it is not an image. */
  lemma SizeReportedFirst(f: File)
    requires f.size > MaxImageBytes && !StartsWith(f.mimeType, "image/")
    ensures Rejection(f) == Some(TooLarge)
  {
  }

  /** The form's `defaultValues`; `form.reset()` restores them. */
  datatype ProductForm = ProductForm(name: string, description: string, price: string, quantity: int,
                                     category: string, sku: string, isActive: bool)

  const DefaultForm: ProductForm := ProductForm("", "", "0", 0, "", "", true)

  class AddProductDialog {
    var form: ProductForm
    var selectedFile: Option<File>
    /** The data URL the `FileReader` produced. */
    var imagePreview: Option<string>
    /** The `open` prop, as set through `onOpenChange`. */
    var open: bool
    /** The query keys passed to `invalidateQueries`, in order. */
    var invalidated: seq<string>
    const categories: CollectionPage<Category>

    constructor (open: bool)
      ensures this.open == open && form == DefaultForm
      ensures selectedFile.None? && imagePreview.None? && invalidated == []
      ensures fresh(categories) && categories.items == [] && categories.isLoading
      ensures categories.errorText == "Failed to load categories. Please try again later."
      ensures categories.requireSuccess
    {
      this.open := open;
      form := DefaultForm;
      selectedFile := None;
      imagePreview := None;
      invalidated := [];
      categories := new CollectionPage(true, "Failed to load categories. Please try again later.", true);
    }

    /**
     * `handleFileSelect`: with no file nothing happens; a refused file only
     * raises its toast; an accepted one becomes the selection.
     */
    method HandleFileSelect(files: seq<File>) returns (toast: Option<Toast>)
      modifies this
      ensures files == [] ==> toast.None? && selectedFile == old(selectedFile)
      ensures files != [] ==> toast == Rejection(files[0])
      ensures files != [] && toast.None? ==> selectedFile == Some(files[0])
      ensures files != [] && toast.Some? ==> selectedFile == old(selectedFile)
      ensures form == old(form) && imagePreview == old(imagePreview) && open == old(open)
      ensures invalidated == old(invalidated)
    {
      if files == [] {
        return None;
      }
      var file := files[0];
      if file.size > MaxImageBytes {
        return Some(TooLarge);
      }
      if !StartsWith(file.mimeType, "image/") {
        return Some(NotAnImage);
      }
      selectedFile := Some(file);
      toast := None;
    }

    /** The `FileReader`'s `onloadend`: the preview shows the data URL. */
    method OnPreviewLoaded(dataUrl: string)
      modifies this
      ensures imagePreview == Some(dataUrl)
      ensures form == old(form) && selectedFile == old(selectedFile) && open == old(open)
      ensures invalidated == old(invalidated)
    {
      imagePreview := Some(dataUrl);
    }

    /** Add `onSuccess`: invalidate the products query, then the same reset as cancel. */
    method OnAddSuccess() returns (toast: Toast)
      modifies this
      ensures toast == Toast("Product added", Some("Product has been successfully added."), false)
      ensures invalidated == old(invalidated) + ["/api/products"]
      ensures form == DefaultForm && selectedFile.None? && imagePreview.None? && !open
    {
      invalidated := invalidated + ["/api/products"];
      toast := Toast("Product added", Some("Product has been successfully added."), false);
      Reset();
    }

    /** Add `onError`: a toast; the form keeps what was typed. */
    method OnAddError(e: AxiosError) returns (toast: Toast)
      ensures toast == Toast("Error", Some(ErrorDescription(e, "Failed to add product")), true)
    {
      toast := Toast("Error", Some(ErrorDescription(e, "Failed to add product")), true);
    }

    /** `handleCancel`. */
    method HandleCancel()
      modifies this
      ensures form == DefaultForm && selectedFile.None? && imagePreview.None? && !open
      ensures invalidated == old(invalidated)
    {
      Reset();
    }

    /** `form.reset()`, both `set…(null)` calls and `onOpenChange(false)`. */
    method Reset()
      modifies this
      ensures form == DefaultForm && selectedFile.None? && imagePreview.None? && !open
      ensures invalidated == old(invalidated)
    {
      form := DefaultForm;
      selectedFile := None;
      imagePreview := None;
      open := false;
    }
  }

  /** `{ success: false, data: [...] }` yields no categories here, though the other pages would take them. */
  lemma FailedFlagDiscardsData(cs: seq<Category>)
    ensures NormaliseSuccess(ObjectBody(JsValues.Bool(false), Some(cs))) == []
    ensures Normalise(ObjectBody(JsValues.Bool(false), Some(cs))) == cs
  {
  }
}
