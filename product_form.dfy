/**
 * The admin product editor, src/components/admin/ProductForm.tsx: the initial
 * form values, the check chain run before saving, the save call, and the two
 * parallel image lists (`imageUrls`, the previews shown, and `images`, the new
 * files to upload).
 */
module ProductForm {
  import opened Types
  import opened Text

  datatype ProductFormData = ProductFormData(
    name: string, description: string, price: real, compareAtPrice: real,
    category: string, inStock: bool, featured: bool)

  /** The form for `product` (editing) or for a new product (`None`). */
  function InitialFormData(product: Option<Product>): ProductFormData {
    match product
    case None => ProductFormData("", "", 0.0, 0.0, "clothing", true, false)
    case Some(p) =>
      ProductFormData(p.name, p.description, p.price,
        if p.compareAtPrice.Some? then p.compareAtPrice.value else 0.0,
        if p.category != "" then p.category else "clothing", p.inStock, p.featured)
  }

  /**
   * A new product starts with price 0, category "clothing", in stock and not
   * featured; an edited product starts from its own values, an empty category
   * falling back to "clothing" and a missing compare-at price to 0.
   */
  lemma InitialFormDataValues(product: Option<Product>)
    ensures var f := InitialFormData(product);
      product.None? ==> (f.name == "" && f.description == "" && f.price == 0.0
        && f.category == "clothing" && f.inStock && !f.featured)
    ensures var f := InitialFormData(product);
      product.Some? ==> (f.name == product.value.name && f.description == product.value.description
        && f.price == product.value.price
        && f.inStock == product.value.inStock && f.featured == product.value.featured
        && f.category == (if product.value.category != "" then product.value.category else "clothing")
        && (product.value.compareAtPrice.Some? ==> f.compareAtPrice == product.value.compareAtPrice.value)
        && (product.value.compareAtPrice.None? ==> f.compareAtPrice == 0.0))
  {
  }

  // ---------------------------------------------------------------- validateForm

  datatype ProductCheck = MissingName | MissingDescription | InvalidPrice | MissingImages | Complete

  /** `validateForm`, given the number of previews and of new files. */
  function CheckProductForm(f: ProductFormData, previewCount: nat, fileCount: nat): ProductCheck {
    if Trim(f.name) == "" then MissingName
    else if Trim(f.description) == "" then MissingDescription
    else if f.price <= 0.0 then InvalidPrice
    else if previewCount == 0 && fileCount == 0 then MissingImages
    else Complete
  }

  /**
   * The form is complete exactly when the name and the description are not
   * blank, the price is positive and there is an image; the first failing
   * check is reported, and the compare-at price is never looked at.
   */
  lemma CheckProductFormMeaning(f: ProductFormData, previewCount: nat, fileCount: nat, compareAt: real)
    ensures CheckProductForm(f, previewCount, fileCount) == Complete <==>
      !IsBlank(f.name) && !IsBlank(f.description) && f.price > 0.0 && (previewCount > 0 || fileCount > 0)
    ensures CheckProductForm(f, previewCount, fileCount) == MissingName <==> IsBlank(f.name)
    ensures CheckProductForm(f, previewCount, fileCount) == MissingDescription <==>
      !IsBlank(f.name) && IsBlank(f.description)
    ensures CheckProductForm(f, previewCount, fileCount) == InvalidPrice <==>
      !IsBlank(f.name) && !IsBlank(f.description) && f.price <= 0.0
    ensures CheckProductForm(f.(compareAtPrice := compareAt), previewCount, fileCount) == CheckProductForm(f, previewCount, fileCount)
  {
    TrimEmptyIffBlank(f.name);
    TrimEmptyIffBlank(f.description);
  }

  // ---------------------------------------------------------------- handleSubmit

  datatype SaveCall =
    | UpdateCall(id: string, data: ProductFormData, files: seq<ImageFile>)
    | AddCall(data: ProductFormData, files: seq<ImageFile>)

  /** `handleSubmit`: the service call it makes, if the form passes. */
  function Submit(product: Option<Product>, f: ProductFormData, imageUrls: seq<string>, images: seq<ImageFile>): (r: Option<SaveCall>)
    ensures r.Some? <==> CheckProductForm(f, |imageUrls|, |images|) == Complete
    ensures r.Some? ==> r.value.data == f && r.value.files == images
    ensures r.Some? ==> (r.value.UpdateCall? <==> product.Some?)
    ensures r.Some? && product.Some? ==> r.value.id == product.value.id
  {
    if CheckProductForm(f, |imageUrls|, |images|) != Complete then None
    else if product.Some? then Some(UpdateCall(product.value.id, f, images))
    else Some(AddCall(f, images))
  }

  /**
   * The previews are not part of the save call: once some preview remains,
   * which previews remain makes no difference, so an original image removed
   * from the previews stays on the stored product.
   */
  lemma PreviewsNotSaved(product: Option<Product>, f: ProductFormData, urls1: seq<string>, urls2: seq<string>, images: seq<ImageFile>)
    requires urls1 != [] && urls2 != []
    ensures Submit(product, f, urls1, images) == Submit(product, f, urls2, images)
  {
  }

  // ---------------------------------------------------------------- image lists

  /** `s.filter((_, k) => k !== i)` */
  function RemoveAt<T>(s: seq<T>, i: int): (r: seq<T>)
    ensures 0 <= i < |s| ==> |r| == |s| - 1 && r[..i] == s[..i] && r[i..] == s[i + 1..]
    ensures !(0 <= i < |s|) ==> r == s
  {
    if 0 <= i < |s| then s[..i] + s[i + 1..] else s
  }

  /** The preview URL of each file, in file order; `previewOf` stands for `URL.createObjectURL`. */
  function Previews(files: seq<ImageFile>, previewOf: ImageFile -> string): (r: seq<string>)
    ensures |r| == |files|
    ensures forall k :: 0 <= k < |files| ==> r[k] == previewOf(files[k])
  {
    seq(|files|, k requires 0 <= k < |files| => previewOf(files[k]))
  }

  /**
   * The two lists line up: the new files' previews are the last |files|
   * entries of the preview list, in file order (the previews before them are
   * the remaining images of the product being edited).
   */
  ghost predicate Aligned(urls: seq<string>, files: seq<ImageFile>, previewOf: ImageFile -> string) {
    |files| <= |urls| && forall k :: 0 <= k < |files| ==> urls[|urls| - |files| + k] == previewOf(files[k])
  }

  /**
   * `handleRemoveImage` as written: the position in `images` is `index` minus
   * the number of images the product had when the form opened, even after
   * some of those have been removed from the previews.
   */
  function RemoveAsWritten(urls: seq<string>, files: seq<ImageFile>, originalCount: nat, index: int): (seq<string>, seq<ImageFile>) {
    (RemoveAt(urls, index), if index >= originalCount then RemoveAt(files, index - originalCount) else files)
  }

  /**
   * `handleRemoveImage` with the offset it evidently intends: the number of
   * product images still shown, |urls| - |files|.
   */
  function RemoveImageAt(urls: seq<string>, files: seq<ImageFile>, index: int): (seq<string>, seq<ImageFile>) {
    var offset := |urls| - |files|;
    (RemoveAt(urls, index), if index >= offset then RemoveAt(files, index - offset) else files)
  }

  /** Appending files keeps the lists aligned. */
  lemma AddKeepsAligned(urls: seq<string>, files: seq<ImageFile>, added: seq<ImageFile>, previewOf: ImageFile -> string)
    requires Aligned(urls, files, previewOf)
    ensures Aligned(urls + Previews(added, previewOf), files + added, previewOf)
  {
    var u := urls + Previews(added, previewOf);
    var f := files + added;
    forall k | 0 <= k < |f| ensures u[|u| - |f| + k] == previewOf(f[k]) {
      if k < |files| {
        assert u[|u| - |f| + k] == urls[|urls| - |files| + k];
      } else {
        assert u[|u| - |f| + k] == Previews(added, previewOf)[k - |files|];
      }
    }
  }

  /**
   * The corrected removal keeps the lists aligned: removing a product image
   * leaves the files alone, removing a new file's preview removes that file.
   */
  lemma RemoveImageAtKeepsAligned(urls: seq<string>, files: seq<ImageFile>, index: int, previewOf: ImageFile -> string)
    requires Aligned(urls, files, previewOf)
    ensures var (u, f) := RemoveImageAt(urls, files, index); Aligned(u, f, previewOf)
    ensures var (u, f) := RemoveImageAt(urls, files, index);
      0 <= index < |urls| ==> |u| == |urls| - 1 && |u| - |f| == |urls| - |files| - (if index < |urls| - |files| then 1 else 0)
  {
    var offset := |urls| - |files|;
    var (u, f) := RemoveImageAt(urls, files, index);
    if 0 <= index < |urls| {
      if index < offset {
        forall k | 0 <= k < |f| ensures u[|u| - |f| + k] == previewOf(f[k]) {
          assert u[|u| - |f| + k] == urls[|urls| - |files| + k];
        }
      } else {
        var j := index - offset;
        forall k | 0 <= k < |f| ensures u[|u| - |f| + k] == previewOf(f[k]) {
          if k < j {
            assert u[|u| - |f| + k] == urls[|urls| - |files| + k];
            assert f[k] == files[k];
          } else {
            assert u[|u| - |f| + k] == urls[|urls| - |files| + k + 1];
            assert f[k] == files[k + 1];
          }
        }
      }
    }
  }

  /** While no product image has been removed, the as-written removal is the corrected one. */
  lemma AsWrittenAgreesWhileOriginalsKept(urls: seq<string>, files: seq<ImageFile>, originalCount: nat, index: int)
    requires |urls| == originalCount + |files|
    ensures RemoveAsWritten(urls, files, originalCount, index) == RemoveImageAt(urls, files, index)
    ensures index >= originalCount ==>
      var (u, f) := RemoveAsWritten(urls, files, originalCount, index); |u| == originalCount + |f|
  {
  }

  /**
   * The input that shows the as-written offset going wrong: a product with
   * images `o1`, `o2`; a file `f` added (preview `pv`); `o1` removed (index 0);
   * then `pv` removed (index 1). As written, `f` stays queued for upload
   * although its preview is gone; the corrected removal drops it.
   */
  lemma RemoveAsWrittenKeepsRemovedFile(o1: string, o2: string, f: ImageFile, previewOf: ImageFile -> string)
    requires o2 != previewOf(f)
    ensures var start := ([o1, o2, previewOf(f)], [f]);
      Aligned(start.0, start.1, previewOf)
    ensures var (u1, f1) := RemoveAsWritten([o1, o2, previewOf(f)], [f], 2, 0);
      var (u2, f2) := RemoveAsWritten(u1, f1, 2, 1);
      u2 == [o2] && f2 == [f] && previewOf(f) !in u2 && !Aligned(u2, f2, previewOf)
    ensures var (u1, f1) := RemoveImageAt([o1, o2, previewOf(f)], [f], 0);
      var (u2, f2) := RemoveImageAt(u1, f1, 1);
      u2 == [o2] && f2 == [] && Aligned(u2, f2, previewOf)
  {
    var pv := previewOf(f);
    var first := RemoveAsWritten([o1, o2, pv], [f], 2, 0);
    assert [o1, o2, pv][..0] + [o1, o2, pv][1..] == [o2, pv];
    assert first == ([o2, pv], [f]);
    var second := RemoveAsWritten([o2, pv], [f], 2, 1);
    assert [o2, pv][..1] + [o2, pv][2..] == [o2];
    assert second == ([o2], [f]);
    assert !Aligned([o2], [f], previewOf) by {
      assert [o2][0] == o2 && [f][0] == f;
    }
    var fixed := RemoveImageAt([o1, o2, pv], [f], 0);
    assert fixed == ([o2, pv], [f]);
    assert [f][..0] + [f][1..] == [];
    assert RemoveImageAt([o2, pv], [f], 1) == ([o2], []);
  }

  /**
   * The two image lists of the form; `previewOf` stands for
   * `URL.createObjectURL` and `originalCount` is `product?.images.length || 0`,
   * fixed when the form opens.
   */
  class ImagePicker {
    const previewOf: ImageFile -> string
    const originalCount: nat
    var images: seq<ImageFile>
    var imageUrls: seq<string>

    ghost predicate Valid()
      reads this
    {
      Aligned(imageUrls, images, previewOf)
    }

    /** No product image has been removed from the previews yet. */
    ghost predicate OriginalsKept()
      reads this
    {
      |imageUrls| == originalCount + |images|
    }

    /** The previews start as the product's images (none for a new product); no files yet. */
    constructor (original: seq<string>, previewOf: ImageFile -> string)
      ensures imageUrls == original && images == [] && this.previewOf == previewOf
      ensures originalCount == |original|
      ensures Valid() && OriginalsKept()
    {
      this.previewOf := previewOf;
      originalCount := |original|;
      images := [];
      imageUrls := original;
    }

    /** `handleImageChange`: the files and their previews are appended. */
    method AddFiles(files: seq<ImageFile>)
      modifies this
      ensures images == old(images) + files
      ensures imageUrls == old(imageUrls) + Previews(files, previewOf)
      ensures old(Valid()) ==> Valid()
      ensures old(OriginalsKept()) ==> OriginalsKept()
    {
      if old(Valid()) {
        AddKeepsAligned(imageUrls, images, files, previewOf);
      }
      if |files| > 0 {
        images := images + files;
        imageUrls := imageUrls + Previews(files, previewOf);
      } else {
        assert images + files == images;
        assert imageUrls + Previews(files, previewOf) == imageUrls;
      }
    }

    /**
     * `handleRemoveImage` as written: the position in `images` is `index`
     * minus `originalCount`. The lists stay aligned while no product image has
     * been removed; `RemoveAsWrittenKeepsRemovedFile` shows an input where
     * they do not.
     */
    method RemoveImage(index: int)
      modifies this
      ensures (imageUrls, images) == RemoveAsWritten(old(imageUrls), old(images), originalCount, index)
      ensures old(Valid()) && old(OriginalsKept()) ==> Valid()
      ensures old(OriginalsKept()) && index >= originalCount ==> OriginalsKept()
    {
      if OriginalsKept() {
        AsWrittenAgreesWhileOriginalsKept(imageUrls, images, originalCount, index);
        if Valid() {
          RemoveImageAtKeepsAligned(imageUrls, images, index, previewOf);
        }
      }
      imageUrls := RemoveAt(imageUrls, index);
      if index >= originalCount {
        images := RemoveAt(images, index - originalCount);
      }
    }

    /**
     * `handleRemoveImage` with the offset it evidently intends, the number of
     * product images still shown: the lists stay aligned after any removal.
     */
    method RemoveImageCorrected(index: int)
      modifies this
      ensures (imageUrls, images) == RemoveImageAt(old(imageUrls), old(images), index)
      ensures old(Valid()) ==> Valid()
    {
      if Valid() {
        RemoveImageAtKeepsAligned(imageUrls, images, index, previewOf);
      }
      var offset := |imageUrls| - |images|;
      imageUrls := RemoveAt(imageUrls, index);
      if index >= offset {
        images := RemoveAt(images, index - offset);
      }
    }
  }
}
