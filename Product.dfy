/**
 * The product detail page: the fetched product with its images sorted by `sort_order`, the
 * loading and not-found branches, the rating row and the video section.
 */
module Product {
  import opened Wrappers
  import opened Images
  import Rating
  import YouTube
  import opened Money

  /** The selected product fields; `images` is the row's `product_images`, absent when `null`. */
  datatype ProductRow = ProductRow(
    id: string, name: string, priceMru: int,
    shortDescription: Option<string>, description: Option<string>,
    rating: real, ratingCount: int, videoUrl: Option<string>,
    images: Option<seq<ProductImage>>)

  /** The product as the page keeps it, with its images in a list. */
  datatype ProductData = ProductData(
    id: string, name: string, priceMru: int,
    shortDescription: Option<string>, description: Option<string>,
    rating: real, ratingCount: int, videoUrl: Option<string>,
    images: seq<ProductImage>)

  /** What the awaited query gave: a row or `null`, or a thrown error. */
  datatype FetchOutcome = Returned(data: Option<ProductRow>) | Threw

  /** The row with its image list replaced. */
  function WithImages(row: ProductRow, images: seq<ProductImage>): (p: ProductData)
    ensures p.id == row.id && p.name == row.name && p.priceMru == row.priceMru
    ensures p.rating == row.rating && p.ratingCount == row.ratingCount && p.videoUrl == row.videoUrl
    ensures p.shortDescription == row.shortDescription && p.description == row.description
    ensures p.images == images
  {
    ProductData(row.id, row.name, row.priceMru, row.shortDescription, row.description,
      row.rating, row.ratingCount, row.videoUrl, images)
  }

  /** The images a fetched row brings: its list, or the empty list for `null`. */
  function RowImages(row: ProductRow): (images: seq<ProductImage>)
    ensures row.images.Some? ==> images == row.images.value
    ensures row.images.None? ==> images == []
  {
    row.images.GetOr([])
  }

  /** The details that the page draws for a loaded product. */
  datatype Details = Details(
    stars: seq<Rating.Glyph>,
    ratingCount: Option<int>,       // shown only when positive
    shortDescription: Option<string>,
    editButton: bool,
    mainImage: Option<Option<string>>,  // the image box, when there are images, with the selected url if in range
    thumbnails: seq<string>,        // the strip, when there is more than one image
    price: string,
    description: Option<string>,
    video: Option<YouTube.Video>)

  /** A toast: its text and whether it uses the destructive style. */
  datatype Notice = Notice(description: string, destructive: bool)

  const LoadFailed := Notice("خطأ في تحميل بيانات المنتج", true)
  const AddedToCart := Notice("تم إضافة المنتج إلى السلة", false)

  /** The three branches of the page. */
  datatype View = LoadingView | NotFoundView | DetailsView(details: Details)

  /** A JavaScript string used as a condition: present and non-empty. */
  function Truthy(s: Option<string>): (r: Option<string>)
    ensures r.Some? <==> s.Some? && s.value != ""
    ensures r.Some? ==> r == s
  {
    if s.Some? && s.value != "" then s else None
  }

  /** The urls of the images, in their order. */
  function Urls(images: seq<ProductImage>): (urls: seq<string>)
    ensures |urls| == |images|
    ensures forall k :: 0 <= k < |images| ==> urls[k] == images[k].url
  {
    if images == [] then [] else [images[0].url] + Urls(images[1..])
  }

  /** What the page shows for a loaded product. */
  function DetailsOf(p: ProductData, selected: int, isAdmin: bool, render: NumberRenderer): (d: Details)
    ensures d.stars == Rating.Stars(p.rating)
    ensures d.ratingCount.Some? <==> p.ratingCount > 0
    ensures d.mainImage.Some? <==> |p.images| > 0
    ensures |p.images| > 0 ==>
      d.mainImage == Some(if 0 <= selected < |p.images| then Some(p.images[selected].url) else None)
    ensures |d.thumbnails| > 0 <==> |p.images| > 1
    ensures d.video.Some? <==> p.videoUrl.Some? && p.videoUrl.value != ""
    ensures d.video.Some? ==>
      d.video.value == YouTube.RenderVideo(p.videoUrl.value, if |p.images| > 0 then Some(p.images[0].url) else None)
    ensures d.editButton == isAdmin
    ensures |p.images| > 1 ==> d.thumbnails == Urls(p.images)
    ensures d.ratingCount.Some? ==> d.ratingCount.value == p.ratingCount
    ensures d.price == FormatPrice(render, MauritanianOuguiya, p.priceMru)
    ensures d.shortDescription.Some? <==> p.shortDescription.Some? && p.shortDescription.value != ""
    ensures d.shortDescription.Some? ==> d.shortDescription == p.shortDescription
    ensures d.description.Some? <==> p.description.Some? && p.description.value != ""
    ensures d.description.Some? ==> d.description == p.description
  {
    Details(
      Rating.Stars(p.rating),
      if p.ratingCount > 0 then Some(p.ratingCount) else None,
      Truthy(p.shortDescription),
      isAdmin,
      if |p.images| > 0 then Some(if 0 <= selected < |p.images| then Some(p.images[selected].url) else None) else None,
      if |p.images| > 1 then Urls(p.images) else [],
      FormatPrice(render, MauritanianOuguiya, p.priceMru),
      Truthy(p.description),
      match Truthy(p.videoUrl)
      case None => None
      case Some(url) =>
        Some(YouTube.RenderVideo(url, if |p.images| > 0 then Some(p.images[0].url) else None)))
  }

  /**
   * With the images in `sort_order`, the first selection shows the image of least `sort_order`,
   * and a direct video uses that same image as its poster.
   */
  lemma FirstSelectionIsLeast(p: ProductData, isAdmin: bool, render: NumberRenderer)
    requires |p.images| > 0 && SortedByOrder(p.images)
    ensures DetailsOf(p, 0, isAdmin, render).mainImage == Some(Some(p.images[0].url))
    ensures forall k :: 0 <= k < |p.images| ==> p.images[0].sortOrder <= p.images[k].sortOrder
    ensures var v := DetailsOf(p, 0, isAdmin, render).video;
      v.Some? && v.value.Direct? ==> v.value.poster == Some(p.images[0].url)
  {
    forall k | 0 <= k < |p.images| ensures p.images[0].sortOrder <= p.images[k].sortOrder {
      SortedHeadIsLeast(p.images, k);
    }
  }

  /** The product page's state. */
  class ProductPage {
    var product: Option<ProductData>
    var selectedImageIndex: int
    var loading: bool
    /** Notifications shown, oldest first. */
    var toasts: seq<Notice>

    constructor ()
      ensures product == None && selectedImageIndex == 0 && loading && toasts == []
    {
      product := None;
      selectedImageIndex := 0;
      loading := true;
      toasts := [];
    }

    /**
     * `fetchProduct` once its query has answered. An empty route id returns before the
     * `try`, so the page stays loading. Otherwise `loading` ends false; a row is stored with its
     * images sorted in ascending `sort_order`; `null` leaves the product as it was; a thrown error
     * adds a notification.
     */
    method FetchProduct(productId: string, outcome: FetchOutcome)
      modifies this
      ensures selectedImageIndex == old(selectedImageIndex)
      ensures productId == "" ==> product == old(product) && loading == old(loading) && toasts == old(toasts)
      ensures productId != "" ==> !loading
      ensures productId != "" && outcome.Returned? && outcome.data.Some? ==>
        var row := outcome.data.value;
        && product.Some?
        && product.value == WithImages(row, product.value.images)
        && SortedByOrder(product.value.images)
        && multiset(product.value.images) == multiset(RowImages(row))
      ensures productId != "" && outcome.Returned? && outcome.data.None? ==> product == old(product)
      ensures productId != "" && outcome.Returned? ==> toasts == old(toasts)
      ensures productId != "" && outcome.Threw? ==>
        product == old(product) && toasts == old(toasts) + [LoadFailed]
    {
      if productId == "" {
        return;
      }
      match outcome {
        case Threw =>
          toasts := toasts + [LoadFailed];
        case Returned(data) =>
          if data.Some? {
            var row := data.value;
            var fetched := RowImages(row);
            var a := new ProductImage[|fetched|](k requires 0 <= k < |fetched| => fetched[k]);
            assert a[..] == fetched;
            SortBySortOrder(a);
            product := Some(WithImages(row, a[..]));
          }
      }
      loading := false;
    }

    /** A thumbnail's `onClick`. */
    method SelectImage(index: int)
      modifies this
      ensures selectedImageIndex == index
      ensures product == old(product) && loading == old(loading) && toasts == old(toasts)
    {
      selectedImageIndex := index;
    }

    /** `handleAddToCart`: a confirmation notification and nothing else; no cart is written. */
    method AddToCart()
      modifies this
      ensures toasts == old(toasts) + [AddedToCart]
      ensures product == old(product) && selectedImageIndex == old(selectedImageIndex) && loading == old(loading)
    {
      toasts := toasts + [AddedToCart];
    }

    /** `renderRating` on this page: nothing without a product, else the five glyphs. */
    method RenderRating() returns (stars: Option<seq<Rating.Glyph>>)
      ensures product.None? ==> stars.None?
      ensures product.Some? ==> stars == Some(Rating.Stars(product.value.rating))
    {
      if product.None? {
        return None;
      }
      var s := Rating.RenderRating(product.value.rating);
      stars := Some(s);
    }

    /** The branch the page renders: loading first, then not found, then the details. */
    function View(isAdmin: bool, render: NumberRenderer): (v: View)
      reads this
      ensures v.LoadingView? <==> loading
      ensures v.NotFoundView? <==> !loading && product.None?
      ensures v.DetailsView? ==> v.details == DetailsOf(product.value, selectedImageIndex, isAdmin, render)
    {
      if loading then LoadingView
      else if product.None? then NotFoundView
      else DetailsView(DetailsOf(product.value, selectedImageIndex, isAdmin, render))
    }
  }
}
