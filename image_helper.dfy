/** Turning the image paths the backend stores into URLs the browser can load. */
module ImageHelper {
  import opened Common

  const StorageBaseUrl := "http://127.0.0.1:8000/storage"

  /** Placeholder shown for a product without an image. */
  const DefaultImage := "https://" + DefaultImageLocation

  const DefaultImageLocation := "lh3.googleusercontent.com/aida-public/AB6AXuBBa2kYqZWwkzyIDnMadWdrv2PH66SpKeDJFkdYHFB9IE6fYmh3bgEvnD2sHXPtQa1ubiCEAS6uMor-HcE61thUFbS7tB8DcjiYjHrtp5Rj1Y2YO764TuqUKpwovgNJY792cKiXW8pTP8EPwt3TxS_sBbOE4UNmhgF8BkSqIjlMjs1LAdaZqki3RS1JdcNlaQDXwE7SEOoti1PGDEzCvktwiQea2m0Mer9o5tFh8RRCqOrHylyuZx4ro8AiQSRhuFW-b5p_zLyIBXI"

  predicate IsAbsolute(path: string) {
    StartsWith(path, "http://") || StartsWith(path, "https://")
  }

  /** A missing or empty path gives the placeholder; an http(s) URL is kept;
      anything else is a file under the storage base. Every result is an
      http(s) URL. */
  function GetImageUrl(path: Option<string>): (r: string)
    ensures !Truthy(path) ==> r == DefaultImage
    ensures Truthy(path) && IsAbsolute(path.value) ==> r == path.value
    ensures Truthy(path) && !IsAbsolute(path.value) ==> r == StorageBaseUrl + "/" + path.value
    ensures IsAbsolute(r)
  {
    if !Truthy(path) then
      assert ("https://" + DefaultImageLocation)[..8] == "https://";
      DefaultImage
    else if IsAbsolute(path.value) then path.value
    else
      assert (StorageBaseUrl + "/" + path.value)[..7] == "http://";
      StorageBaseUrl + "/" + path.value
  }

  /** Resolving a resolved URL changes nothing. */
  lemma GetImageUrlIdempotent(path: Option<string>)
    ensures GetImageUrl(Some(GetImageUrl(path))) == GetImageUrl(path)
  {
    var u := GetImageUrl(path);
    assert u != "" by {
      assert |u| >= 7;
    }
  }

  /** A product as the products endpoint returns it. */
  datatype Product = Product(id: int, name: string, price: int, categoryId: int,
                             description: Option<string>, status: string, image: Option<string>)

  /** formatProductImages: the same products in the same order, each with its
      image resolved and every other field unchanged. */
  function FormatProductImages(products: seq<Product>): (r: seq<Product>)
    ensures |r| == |products|
    ensures forall k :: 0 <= k < |products| ==>
      r[k] == products[k].(image := Some(GetImageUrl(products[k].image)))
  {
    seq(|products|, k requires 0 <= k < |products| => products[k].(image := Some(GetImageUrl(products[k].image))))
  }

  /** Formatting formatted products changes nothing. */
  lemma FormatProductImagesIdempotent(products: seq<Product>)
    ensures FormatProductImages(FormatProductImages(products)) == FormatProductImages(products)
  {
    var once := FormatProductImages(products);
    forall k | 0 <= k < |products|
      ensures FormatProductImages(once)[k] == once[k]
    {
      GetImageUrlIdempotent(products[k].image);
    }
  }
}
