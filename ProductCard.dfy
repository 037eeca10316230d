/**
 * The product card of the listings: the thumbnail is the first image after sorting the product's
 * own image array in place, then the five-star row, the rating count, the price and the link.
 */
module ProductCard {
  import opened Wrappers
  import opened Images
  import Rating
  import opened Money

  const DetailPrefix := "/product/"

  /** The card's product, without its images (those are the array the card sorts). */
  datatype CardProduct = CardProduct(
    id: string, name: string, priceMru: int, shortDescription: Option<string>,
    rating: real, ratingCount: int)

  /** The picture area: the main image, or the "no image" placeholder. */
  datatype Thumbnail = Photo(url: string) | NoImagePlaceholder

  /** What the card draws. */
  datatype Card = Card(
    editButton: bool, link: string, thumbnail: Thumbnail,
    stars: seq<Rating.Glyph>, ratingCount: Option<int>, price: string)

  /** The link target `/product/${id}`; the id can be read back off it. */
  function DetailLink(id: string): (link: string)
    ensures |link| == |DetailPrefix| + |id|
    ensures link[..|DetailPrefix|] == DetailPrefix && link[|DetailPrefix|..] == id
  {
    DetailPrefix + id
  }

  /** Different products link to different pages. */
  lemma DetailLinkInjective(a: string, b: string)
    requires DetailLink(a) == DetailLink(b)
    ensures a == b
  {
    assert a == DetailLink(a)[|DetailPrefix|..];
  }

  /** `{mainImage ? <img> : placeholder}`: `undefined` and the empty url both give the placeholder. */
  function ThumbnailFor(mainImage: Option<string>): (t: Thumbnail)
    ensures t.Photo? <==> mainImage.Some? && mainImage.value != ""
    ensures t.Photo? ==> t.url == mainImage.value
  {
    if mainImage.Some? && mainImage.value != "" then Photo(mainImage.value) else NoImagePlaceholder
  }

  /** `rating_count > 0 && (...)`: the count, only when positive. */
  function RatingCountLabel(ratingCount: int): (shown: Option<int>)
    ensures shown.Some? <==> ratingCount > 0
    ensures shown.Some? ==> shown.value == ratingCount
  {
    if ratingCount > 0 then Some(ratingCount) else None
  }

  /**
   * `product.product_images?.sort(...)?.[0]?.url`: sorts the array in place, then takes the url of
   * its first entry, which has the least `sort_order`; `undefined` for no images.
   */
  method MainImage(images: array<ProductImage>) returns (mainImage: Option<string>)
    modifies images
    ensures SortedByOrder(images[..])
    ensures multiset(images[..]) == multiset(old(images[..]))
    ensures mainImage.None? <==> images.Length == 0
    ensures mainImage.Some? ==> mainImage.value == images[0].url
    ensures mainImage.Some? ==> forall k :: 0 <= k < images.Length ==> images[0].sortOrder <= images[k].sortOrder
  {
    SortBySortOrder(images);
    if images.Length == 0 {
      return None;
    }
    forall k | 0 <= k < images.Length ensures images[0].sortOrder <= images[k].sortOrder {
      SortedHeadIsLeast(images[..], k);
    }
    mainImage := Some(images[0].url);
  }

  /** The card for a product whose images are `images`; rendering sorts that array. */
  method RenderCard(product: CardProduct, images: array<ProductImage>, isAdmin: bool, render: NumberRenderer)
    returns (card: Card)
    modifies images
    ensures SortedByOrder(images[..])
    ensures multiset(images[..]) == multiset(old(images[..]))
    ensures card.editButton == isAdmin
    ensures card.link == DetailLink(product.id)
    ensures card.thumbnail == ThumbnailFor(if images.Length == 0 then None else Some(images[0].url))
    ensures card.stars == Rating.Stars(product.rating)
    ensures card.ratingCount == RatingCountLabel(product.ratingCount)
    ensures card.price == FormatPrice(render, Ouguiya, product.priceMru)
  {
    var mainImage := MainImage(images);
    var stars := Rating.RenderRating(product.rating);
    card := Card(isAdmin, DetailLink(product.id), ThumbnailFor(mainImage), stars,
      RatingCountLabel(product.ratingCount), FormatPrice(render, Ouguiya, product.priceMru));
  }
}
