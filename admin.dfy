/**
 * The product upload form (src/pages/Admin.tsx). The storage upload and the
 * table insert are remote calls: the model receives their outcomes as
 * parameters (one per image for the uploads, one for the insert), and the
 * time-and-random part of each storage key as a token per image.
 */
module Admin {
  import opened Wrappers

  /** A file chosen in the file input; only its name is used (for the extension of its storage key). */
  datatype ImageFile = ImageFile(name: string)

  datatype ProductForm = ProductForm(
    name: string,
    price: string,
    description: string,
    category: string,
    featured: bool,
    inStock: bool,
    rating: string,
    images: seq<ImageFile>
  )

  /** The form's state when the page opens (lines 22-31). */
  const InitialForm := ProductForm("", "", "", "totes", false, true, "0", [])

  /** The form written back after a successful upload (lines 117-126). */
  const ResetForm := ProductForm("", "", "", "totes", false, true, "0", [])

  /** The choices of the category select (line 37). */
  const FormCategories := ["totes", "shoulder", "clutch", "messenger"]

  /** A successful upload leaves the form exactly as a fresh page shows it: empty, a tote, in stock, no images. */
  lemma ResetIsInitial()
    ensures ResetForm == InitialForm
    ensures InitialForm.name == "" && InitialForm.price == "" && InitialForm.description == ""
    ensures InitialForm.category == "totes" && InitialForm.category in FormCategories
    ensures !InitialForm.featured && InitialForm.inStock && InitialForm.rating == "0" && InitialForm.images == []
  {
  }

  /** `[...prev.images, ...files]`: the new files after the ones already chosen, both in order. */
  function AppendImages(images: seq<ImageFile>, files: seq<ImageFile>): (r: seq<ImageFile>)
    ensures |r| == |images| + |files|
    ensures r[..|images|] == images && r[|images|..] == files
  {
    images + files
  }

  /** `prev.images.filter((_, i) => i !== index)`: every image whose position is not `index`. */
  function RemoveImage(images: seq<ImageFile>, index: int): (r: seq<ImageFile>)
    ensures 0 <= index < |images| ==> r == images[..index] + images[index + 1..]
    ensures index < 0 || |images| <= index ==> r == images
    decreases |images|
  {
    if images == [] then []
    else
      var last := |images| - 1;
      var kept := RemoveImage(images[..last], index);
      assert 0 <= index < last ==> images[..last][index + 1..] + [images[last]] == images[index + 1..];
      kept + (if last == index then [] else [images[last]])
  }

  /** Removing the image just appended restores the list. */
  lemma {:induction false} RemoveAppended(images: seq<ImageFile>, file: ImageFile)
    ensures RemoveImage(AppendImages(images, [file]), |images|) == images
  {
    var appended := AppendImages(images, [file]);
    assert appended[..|images|] == images;
  }

  /** `name.split('.').pop()`: what follows the last dot, or the whole name when there is none. */
  function FileExt(name: string): (ext: string)
    ensures |ext| <= |name|
  {
    if name == [] then []
    else if name[|name| - 1] == '.' then []
    else FileExt(name[..|name| - 1]) + [name[|name| - 1]]
  }

  /** The extension is the longest dot-free tail of the name: a suffix, free of dots, preceded by a dot unless it is the whole name. */
  lemma {:induction false} FileExtIsLastPart(name: string)
    ensures var ext := FileExt(name);
      && name[|name| - |ext|..] == ext
      && '.' !in ext
      && (|ext| < |name| ==> name[|name| - |ext| - 1] == '.')
  {
    if name != [] && name[|name| - 1] != '.' {
      var init, c := name[..|name| - 1], name[|name| - 1];
      var ext := FileExt(init);
      FileExtIsLastPart(init);
      var k := |init| - |ext|;
      assert name == init + [c];
      assert FileExt(name) == ext + [c];
      SliceOfAppend(init, [c], k);
      if k > 0 {
        assert name[k - 1] == init[k - 1];
      }
    }
  }

  /** A tail of `a + b` that starts inside `a` is that tail of `a` followed by `b`. */
  lemma SliceOfAppend(a: string, b: string, k: nat)
    requires k <= |a|
    ensures (a + b)[k..] == a[k..] + b
  {
  }

  /** `${productId}/${token}.${ext}`, where the token stands for the timestamp and random suffix. */
  function StorageKey(productId: string, token: string, ext: string): (key: string)
    ensures |key| == |productId| + |token| + |ext| + 2
  {
    productId + "/" + token + "." + ext
  }

  /** A key starts with its product id and a slash, and ends with a dot and its extension. */
  lemma StorageKeyParts(productId: string, token: string, ext: string)
    ensures var key := StorageKey(productId, token, ext);
      key[..|productId| + 1] == productId + "/" && key[|key| - |ext| - 1..] == "." + ext
  {
    var key := StorageKey(productId, token, ext);
    assert key[..|productId| + 1] == productId + "/";
    assert key[|key| - |ext| - 1..] == "." + ext;
  }

  /** The storage key of one chosen file: its extension comes from the file's name. */
  function KeyOf(productId: string, token: string, file: ImageFile): string
  {
    StorageKey(productId, token, FileExt(file.name))
  }

  /** What one upload-and-`getPublicUrl` round trip gives. */
  datatype UploadResult = Stored(publicUrl: string) | UploadError(message: string)

  /** The public URLs of the uploads that succeeded, in upload order. */
  function SucceededUrls(results: seq<UploadResult>): (urls: seq<string>)
    ensures |urls| <= |results|
  {
    if results == [] then []
    else
      var last := results[|results| - 1];
      SucceededUrls(results[..|results| - 1]) + (if last.Stored? then [last.publicUrl] else [])
  }

  /** One more upload adds its URL when it succeeded and nothing otherwise. */
  lemma SucceededUrlsStep(results: seq<UploadResult>, i: nat)
    requires i < |results|
    ensures SucceededUrls(results[..i + 1])
      == SucceededUrls(results[..i]) + (if results[i].Stored? then [results[i].publicUrl] else [])
  {
    assert results[..i + 1][..i] == results[..i];
  }

  /** Collecting is done upload by upload: the URLs of two batches are those of each, in order. */
  lemma {:induction false} SucceededUrlsAppend(a: seq<UploadResult>, b: seq<UploadResult>)
    ensures SucceededUrls(a + b) == SucceededUrls(a) + SucceededUrls(b)
    decreases |b|
  {
    if b != [] {
      var last := |b| - 1;
      assert (a + b)[..|a + b| - 1] == a + b[..last];
      SucceededUrlsAppend(a, b[..last]);
    } else {
      assert a + b == a;
    }
  }

  /** A URL is collected exactly when some upload stored it; hence none is collected exactly when every upload failed. */
  lemma {:induction false} SucceededUrlsMembers(results: seq<UploadResult>)
    ensures forall u :: u in SucceededUrls(results) <==> Stored(u) in results
    ensures SucceededUrls(results) == [] <==> forall i :: 0 <= i < |results| ==> results[i].UploadError?
  {
    if results != [] {
      var init := results[..|results| - 1];
      SucceededUrlsMembers(init);
      assert results == init + [results[|results| - 1]];
      if SucceededUrls(results) == [] {
        forall i | 0 <= i < |results| ensures results[i].UploadError? {
          if i < |init| {
            assert results[i] == init[i];
          }
        }
      } else {
        var u := SucceededUrls(results)[0];
        assert u in SucceededUrls(results);
      }
    }
  }

  /**
   * `uploadImages`: one storage request per image, in order, under a key
   * scoped by `productId`; a failed upload is skipped and the loop goes on.
   * `storage[i]` and `tokens[i]` stand for what the store and the clock give
   * for image `i`.
   */
  method UploadImages(productId: string, images: seq<ImageFile>, tokens: seq<string>, storage: seq<UploadResult>)
    returns (urls: seq<string>, requestedKeys: seq<string>)
    requires |tokens| == |images| && |storage| == |images|
    ensures |requestedKeys| == |images|
    ensures forall i :: 0 <= i < |images| ==> requestedKeys[i] == KeyOf(productId, tokens[i], images[i])
    ensures urls == SucceededUrls(storage)
    ensures |urls| <= |images|
  {
    urls, requestedKeys := [], [];
    for i := 0 to |images|
      invariant |requestedKeys| == i
      invariant forall k :: 0 <= k < i ==> requestedKeys[k] == KeyOf(productId, tokens[k], images[k])
      invariant urls == SucceededUrls(storage[..i])
    {
      var fileName := KeyOf(productId, tokens[i], images[i]);
      requestedKeys := requestedKeys + [fileName];
      SucceededUrlsStep(storage, i);
      if storage[i].Stored? {
        urls := urls + [storage[i].publicUrl];
      }
    }
    assert storage[..|images|] == storage;
  }

  /** Every image is required, and so are the name, the price and the description. */
  predicate IsComplete(form: ProductForm)
  {
    form.name != "" && form.price != "" && form.description != "" && |form.images| > 0
  }

  const IncompleteMessage := "Please fill all fields and select at least one image"
  const UploadFailedMessage := "Failed to upload images. Please try again."
  const SuccessMessage := "Product uploaded successfully!"

  /** The row sent to the products table. Price and rating stay the strings typed in. */
  datatype ProductRow = ProductRow(
    name: string,
    price: string,
    description: string,
    category: string,
    featured: bool,
    inStock: bool,
    rating: string,
    images: seq<string>
  )

  function RowOf(form: ProductForm, urls: seq<string>): ProductRow
  {
    ProductRow(form.name, form.price, form.description, form.category, form.featured, form.inStock, form.rating, urls)
  }

  /** How the insert call ends: no error, an error result, or an exception (an `Error` with a message, or anything else). */
  datatype InsertResult = Inserted | InsertError(message: string) | InsertThrew(error: Option<string>)

  class AdminPage {
    var form: ProductForm
    var uploading: bool
    var message: string
    var imageUrls: seq<string>

    constructor ()
      ensures form == InitialForm && !uploading && message == "" && imageUrls == []
    {
      form := InitialForm;
      uploading := false;
      message := "";
      imageUrls := [];
    }

    /** Files picked in the file input are added after the images already chosen. */
    method HandleImageChange(files: seq<ImageFile>)
      modifies this`form
      ensures form == old(form).(images := AppendImages(old(form).images, files))
    {
      form := form.(images := AppendImages(form.images, files));
    }

    /** The remove button of the image at `index`. */
    method RemoveImageAt(index: int)
      modifies this`form
      ensures form == old(form).(images := RemoveImage(old(form).images, index))
    {
      form := form.(images := RemoveImage(form.images, index));
    }

    /**
     * `handleSubmit`. An incomplete form is refused before any upload. Images
     * go under the "temp" product id. With no URL collected nothing is
     * inserted; otherwise one row is inserted, and only a clean insert resets
     * the form. In every case `uploading` ends false.
     */
    method HandleSubmit(tokens: seq<string>, storage: seq<UploadResult>, insert: InsertResult)
      returns (requestedKeys: seq<string>, inserted: Option<ProductRow>)
      requires |tokens| == |form.images| && |storage| == |form.images|
      modifies this
      ensures !uploading
      ensures !IsComplete(old(form)) ==>
        && message == IncompleteMessage && form == old(form) && imageUrls == old(imageUrls)
        && requestedKeys == [] && inserted == None
      ensures IsComplete(old(form)) ==>
        && |requestedKeys| == |old(form).images|
        && forall i :: 0 <= i < |requestedKeys| ==> requestedKeys[i] == KeyOf("temp", tokens[i], old(form).images[i])
      ensures IsComplete(old(form)) && SucceededUrls(storage) == [] ==>
        && message == UploadFailedMessage && form == old(form) && imageUrls == old(imageUrls) && inserted == None
      ensures IsComplete(old(form)) && SucceededUrls(storage) != [] ==>
        && inserted == Some(RowOf(old(form), SucceededUrls(storage)))
        && match insert
           case Inserted => message == SuccessMessage && form == ResetForm && imageUrls == []
           case InsertError(m) => message == "Error creating product: " + m && form == old(form) && imageUrls == old(imageUrls)
           case InsertThrew(e) =>
             message == "Error: " + (if e.Some? then e.value else "Unknown error") && form == old(form) && imageUrls == old(imageUrls)
    {
      uploading := true;
      message := "";
      if !IsComplete(form) {
        message := IncompleteMessage;
        uploading := false;
        return [], None;
      }
      var urls;
      urls, requestedKeys := UploadImages("temp", form.images, tokens, storage);
      if |urls| == 0 {
        message := UploadFailedMessage;
        uploading := false;
        return requestedKeys, None;
      }
      inserted := Some(RowOf(form, urls));
      match insert {
        case Inserted =>
          message := SuccessMessage;
          form := ResetForm;
          imageUrls := [];
        case InsertError(m) =>
          message := "Error creating product: " + m;
        case InsertThrew(e) =>
          message := "Error: " + (if e.Some? then e.value else "Unknown error");
      }
      uploading := false;
    }
  }

  /** Every storage key `handleSubmit` requests lies under "temp/" and ends with a dot and its file's extension. */
  lemma SubmitKeysUnderTemp(token: string, file: ImageFile)
    ensures KeyOf("temp", token, file)[..5] == "temp/"
    ensures var ext := FileExt(file.name); var key := KeyOf("temp", token, file);
      key[|key| - |ext| - 1..] == "." + ext && '.' !in ext
  {
    StorageKeyParts("temp", token, FileExt(file.name));
    FileExtIsLastPart(file.name);
  }
}
