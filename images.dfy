/**
 * `DefaultImageManager`: the image store. Images are identified by the
 * digest of their bytes, so an image drawn several times is stored once and
 * every drawing refers to the same metadata.
 *
 * SHA-512 and Base64 are not modelled: the digest (hash then Base64 text) and
 * the raw-data encoding (Base64 text as UTF-8 bytes) are parameters.
 */
module Images {
  import opened Wrappers
  import opened Blocks

  /** What the image manager asks iText about a `PdfImageXObject`. */
  datatype ImageSource = ImageSource(
    bytes: Option<seq<bv8>>,       // GetImageBytes()
    extension: string,             // IdentifyImageFileExtension()
    imageType: string,             // IdentifyImageType().ToString()
    width: real,
    height: real)

  /** The metadata stored for a new image: the raw bytes re-encoded when there are any. */
  function NewImageMeta(uid: Guid, image: ImageSource, bytes: seq<bv8>, hash: string,
                        encode: seq<bv8> -> seq<bv8>): (m: ImageMeta)
    ensures m.uid == uid && m.hash == hash && m.imageExtension == image.extension && m.imageType == image.imageType
    ensures m.width == image.width && m.height == image.height
    ensures |bytes| > 0 ==> m.rawBase64Data == Some(encode(bytes))
    ensures |bytes| == 0 ==> m.rawBase64Data == Some([])
  {
    var raw := if |bytes| > 0 then encode(bytes) else bytes;
    ImageMeta(uid, image.extension, image.imageType, Some(raw), image.width, image.height, hash)
  }

  class ImageCache {
    /** `_imageCache`, by digest. */
    var imageCache: map<string, ImageMeta>
    /** `_disposeCounter`. */
    var disposeCounter: int
    /** The lock has been disposed: every later call throws. */
    var lockDisposed: bool
    /** The next `Guid.NewGuid()`. */
    var nextUid: Guid

    /**
     * Every entry is filed under its own digest, and entries carry distinct
     * Uids, all handed out already.
     */
    ghost predicate Valid()
      reads this
    {
      && (forall h :: h in imageCache ==> imageCache[h].hash == h && imageCache[h].uid < nextUid)
      && (forall h1, h2 :: h1 in imageCache && h2 in imageCache && h1 != h2 ==>
            imageCache[h1].uid != imageCache[h2].uid)
      && disposeCounter >= 0 && (lockDisposed ==> disposeCounter > 0)
    }

    constructor (firstUid: Guid)
      ensures Valid()
      ensures imageCache == map[] && !lockDisposed && nextUid == firstUid
    {
      imageCache := map[];
      disposeCounter := 0;
      lockDisposed := false;
      nextUid := firstUid;
    }

    /** The metadata stored for an image's bytes, if the store holds their digest and is still usable. */
    function Cached(image: ImageSource, digest: seq<bv8> -> string): (r: Option<ImageMeta>)
      reads this
      ensures r.Some? <==> image.bytes.Some? && !lockDisposed && digest(image.bytes.value) in imageCache
      ensures r.Some? ==> r.value == imageCache[digest(image.bytes.value)]
    {
      if image.bytes.Some? && !lockDisposed && digest(image.bytes.value) in imageCache
      then Some(imageCache[digest(image.bytes.value)]) else None
    }

    /**
     * `AddImageResource`: the stored metadata of an image with the same
     * digest, or new metadata, stored. Null bytes make the hasher throw.
     */
    method AddImageResource(image: ImageSource, digest: seq<bv8> -> string, encode: seq<bv8> -> seq<bv8>)
      returns (r: Result<ImageMeta>)
      requires Valid()
      modifies this
      ensures Valid()
      ensures image.bytes.None? ==> r == Err(ArgumentNull) && unchanged(this)
      ensures image.bytes.Some? && old(lockDisposed) ==> r == Err(ObjectDisposed) && unchanged(this)
      ensures image.bytes.Some? && !old(lockDisposed) ==>
        && r.Ok? && r.value.hash == digest(image.bytes.value)
        && r.value.hash in imageCache && imageCache[r.value.hash] == r.value
      ensures image.bytes.Some? && !old(lockDisposed) && digest(image.bytes.value) in old(imageCache) ==>
        r.value == old(imageCache)[digest(image.bytes.value)] && unchanged(this)
      ensures image.bytes.Some? && !old(lockDisposed) && digest(image.bytes.value) !in old(imageCache) ==>
        && r.value == NewImageMeta(old(nextUid), image, image.bytes.value, digest(image.bytes.value), encode)
        && imageCache == old(imageCache)[r.value.hash := r.value]
        && nextUid == old(nextUid) + 1 && lockDisposed == old(lockDisposed)
        && disposeCounter == old(disposeCounter)
    {
      if image.bytes.None? {
        return Err(ArgumentNull);
      }
      var hash := digest(image.bytes.value);
      if lockDisposed {
        return Err(ObjectDisposed);
      }
      if hash in imageCache {
        return Ok(imageCache[hash]);
      }
      var meta := NewImageMeta(nextUid, image, image.bytes.value, hash, encode);
      nextUid := nextUid + 1;
      imageCache := imageCache[hash := meta];
      r := Ok(meta);
    }

    /** `GetAll`: every stored image once, in no particular order. */
    method GetAll() returns (r: Result<seq<ImageMeta>>)
      requires Valid()
      ensures lockDisposed <==> r.Err?
      ensures r.Err? ==> r.error == ObjectDisposed
      ensures r.Ok? ==> |r.value| == |imageCache|
      ensures r.Ok? ==> forall m :: m in r.value <==> m in imageCache.Values
      ensures r.Ok? ==> forall a, b :: 0 <= a < b < |r.value| ==> r.value[a].hash != r.value[b].hash
    {
      if lockDisposed {
        return Err(ObjectDisposed);
      }
      var values: seq<ImageMeta> := [];
      var left := imageCache.Keys;
      while left != {}
        invariant left <= imageCache.Keys
        invariant |values| + |left| == |imageCache|
        invariant forall m :: m in values <==> m.hash in imageCache.Keys - left && imageCache[m.hash] == m
        invariant forall a, b :: 0 <= a < b < |values| ==> values[a].hash != values[b].hash
        decreases |left|
      {
        var h :| h in left;
        values := values + [imageCache[h]];
        left := left - {h};
      }
      r := Ok(values);
    }

    /**
     * `Dispose(fromFinalizer)`: only the first call does anything, and only
     * outside the finalizer does it dispose the lock.
     */
    method DisposeCore(fromFinalizer: bool)
      requires Valid()
      modifies this
      ensures Valid()
      ensures disposeCounter == old(disposeCounter) + 1
      ensures lockDisposed == (old(lockDisposed) || (old(disposeCounter) == 0 && !fromFinalizer))
      ensures imageCache == old(imageCache) && nextUid == old(nextUid)
    {
      disposeCounter := disposeCounter + 1;
      if disposeCounter > 1 {
        return;
      }
      if !fromFinalizer {
        lockDisposed := true;
      }
    }

    /** `Dispose`: the first call disposes the lock; later calls only count. */
    method Dispose()
      requires Valid()
      modifies this
      ensures Valid()
      ensures lockDisposed == (old(lockDisposed) || old(disposeCounter) == 0)
      ensures disposeCounter == old(disposeCounter) + 1
      ensures imageCache == old(imageCache) && nextUid == old(nextUid)
    {
      DisposeCore(false);
    }
  }
}
