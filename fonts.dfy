/**
 * `FontMetaDataInfoExtractStrategy`: the font manager. It measures each
 * (font, size) pair once and caches the result twice: by font name, ignoring
 * case, then by size; and by the Uid it gives the measurement.
 *
 * The reader/writer lock only serialises callers; the model is sequential,
 * and keeps of the lock only whether it was disposed.
 */
module Fonts {
  import opened Wrappers
  import opened Text
  import opened Blocks

  /** `float.MaxValue`; `float.MinValue` is its opposite. */
  const MaxFloat: real := 340282346638528859811704183484516925440.0

  /** `s_testTextFont`: the characters measured to find a font's narrowest and widest glyph. */
  const TestTextFont: seq<string> := ["A", "G", "H", "i", "0", "6", "Q", "P", "p"]

  /** `TEXT_SIZE`: the text whose ascent and descent give a font's line size. */
  const TextSize: string := "pgqtmMT-+_G?0i"

  /** What the font manager asks iText about a `PdfFont` and its `FontProgram`. */
  datatype FontProgram = FontProgram(
    name: string,                       // GetFontNames().GetFontName()
    width: (string, real) -> real,      // GetWidth(text, fontSize)
    ascent: (string, real) -> real,     // GetAscent(text, fontSize)
    descent: (string, real) -> real)    // GetDescent(text, fontSize)

  /** The widths of the test characters at `fontSize`. */
  function Widths(font: FontProgram, fontSize: real): (w: seq<real>)
    ensures |w| == |TestTextFont|
    ensures forall k :: 0 <= k < |w| ==> w[k] == font.width(TestTextFont[k], fontSize)
  {
    seq(|TestTextFont|, k requires 0 <= k < |TestTextFont| => font.width(TestTextFont[k], fontSize))
  }

  /** Every value is a single-precision float: no larger than `float.MaxValue` in magnitude. */
  predicate InFloatRange(w: seq<real>)
  {
    forall k :: 0 <= k < |w| ==> -MaxFloat <= w[k] <= MaxFloat
  }

  /** `m` is the smallest of the values. */
  predicate IsMin(m: real, w: seq<real>)
  {
    (forall k :: 0 <= k < |w| ==> m <= w[k]) && (exists k :: 0 <= k < |w| && m == w[k])
  }

  /** `m` is the largest of the values. */
  predicate IsMax(m: real, w: seq<real>)
  {
    (forall k :: 0 <= k < |w| ==> w[k] <= m) && (exists k :: 0 <= k < |w| && m == w[k])
  }

  /** `info` is the measurement of `font` at `fontSize`. */
  predicate Measures(info: FontMeta, font: FontProgram, fontSize: real)
  {
    && info.name == font.name && info.fontSize == fontSize
    && IsMin(info.minWidth, Widths(font, fontSize)) && IsMax(info.maxWidth, Widths(font, fontSize))
    && info.lineSizePoint == font.ascent(TextSize, fontSize) - font.descent(TextSize, fontSize)
  }

  /**
   * `BuildFontInfo`: the narrowest and widest test glyph, found by one pass
   * from `float.MaxValue` and `float.MinValue`, and the line size.
   */
  method BuildFontInfo(fontSize: real, font: FontProgram, uid: Guid) returns (info: FontMeta)
    requires InFloatRange(Widths(font, fontSize))
    ensures info.uid == uid && Measures(info, font, fontSize)
    ensures info.minWidth <= info.maxWidth
  {
    var widths := Widths(font, fontSize);
    var minSize := MaxFloat;
    var maxSize := -MaxFloat;
    for i := 0 to |TestTextFont|
      invariant forall k :: 0 <= k < i ==> minSize <= widths[k] && widths[k] <= maxSize
      invariant i == 0 ==> minSize == MaxFloat && maxSize == -MaxFloat
      invariant i > 0 ==> exists k :: 0 <= k < i && minSize == widths[k]
      invariant i > 0 ==> exists k :: 0 <= k < i && maxSize == widths[k]
    {
      var width := font.width(TestTextFont[i], fontSize);
      if minSize > width {
        minSize := width;
      }
      if maxSize < width {
        maxSize := width;
      }
    }
    var lineSize := font.ascent(TextSize, fontSize) - font.descent(TextSize, fontSize);
    info := FontMeta(uid, font.name, fontSize, minSize, maxSize, lineSize);
  }

  class FontCache {
    /** `_cache`: by case-folded font name, then by size. */
    var cache: map<string, map<real, FontMeta>>
    /** `_cacheById`. */
    var byUid: map<Guid, FontMeta>
    /** `_disposeCounter`. */
    var disposeCounter: int
    /** The lock has been disposed: every later call throws. */
    var lockDisposed: bool
    /** The next `Guid.NewGuid()`. */
    var nextUid: Guid

    /**
     * Every cached measurement is filed under its own name and size and is
     * also in the by-Uid index; the index maps each Uid to the measurement
     * carrying it, and no Uid is handed out twice.
     */
    ghost predicate Valid()
      reads this
    {
      && (forall name, size :: name in cache && size in cache[name] ==>
            && FoldAll(cache[name][size].name) == name && cache[name][size].fontSize == size
            && cache[name][size].uid in byUid && byUid[cache[name][size].uid] == cache[name][size])
      && (forall u :: u in byUid ==> byUid[u].uid == u && u < nextUid)
      && disposeCounter >= 0 && (lockDisposed ==> disposeCounter > 0)
    }

    constructor (firstUid: Guid)
      ensures Valid()
      ensures cache == map[] && byUid == map[] && !lockDisposed && nextUid == firstUid
    {
      cache := map[];
      byUid := map[];
      disposeCounter := 0;
      lockDisposed := false;
      nextUid := firstUid;
    }

    /** The measurement cached for a font name (ignoring case) and a size. */
    function Lookup(fontName: string, fontSize: real): (r: Option<FontMeta>)
      reads this
      ensures r.Some? <==> FoldAll(fontName) in cache && fontSize in cache[FoldAll(fontName)]
      ensures r.Some? ==> r.value == cache[FoldAll(fontName)][fontSize]
    {
      var key := FoldAll(fontName);
      if key in cache && fontSize in cache[key] then Some(cache[key][fontSize]) else None
    }

    /**
     * `AddOrGetFontInfo`: the cached measurement when there is one; otherwise
     * a new measurement, filed in both indexes. Afterwards the pair is always
     * cached, so a second call returns the same measurement and changes nothing.
     */
    method AddOrGetFontInfo(fontSize: real, font: FontProgram) returns (r: Result<FontMeta>)
      requires Valid() && InFloatRange(Widths(font, fontSize))
      modifies this
      ensures Valid()
      ensures old(lockDisposed) ==> r == Err(ObjectDisposed) && unchanged(this)
      ensures !old(lockDisposed) ==> r.Ok? && Lookup(font.name, fontSize) == Some(r.value)
      ensures !old(lockDisposed) && old(Lookup(font.name, fontSize)).Some? ==>
        r.value == old(Lookup(font.name, fontSize)).value && unchanged(this)
      ensures !old(lockDisposed) && old(Lookup(font.name, fontSize)).None? ==>
        && r.value.uid == old(nextUid) && Measures(r.value, font, fontSize)
        && r.value.uid !in old(byUid) && byUid == old(byUid)[r.value.uid := r.value]
        && (var key := FoldAll(font.name);
            cache == old(cache)[key := (if key in old(cache) then old(cache)[key] else map[])[fontSize := r.value]])
        && nextUid == old(nextUid) + 1 && lockDisposed == old(lockDisposed)
        && disposeCounter == old(disposeCounter)
    {
      if lockDisposed {
        return Err(ObjectDisposed);
      }
      var key := FoldAll(font.name);
      if key in cache && fontSize in cache[key] {
        return Ok(cache[key][fontSize]);
      }
      var info := BuildFontInfo(fontSize, font, nextUid);
      nextUid := nextUid + 1;
      var cacheBySize := if key in cache then cache[key] else map[];
      byUid := byUid[info.uid := info];
      cache := cache[key := cacheBySize[fontSize := info]];
      r := Ok(info);
    }

    /** `Get`: the measurement with that Uid, or `KeyNotFoundException`. */
    method Get(uid: Guid) returns (r: Result<FontMeta>)
      requires Valid()
      ensures lockDisposed ==> r == Err(ObjectDisposed)
      ensures !lockDisposed ==> r == FontGet(byUid, uid)
    {
      if lockDisposed {
        return Err(ObjectDisposed);
      }
      r := FontGet(byUid, uid);
    }

    /** `GetAll`: every measurement once, in no particular order. */
    method GetAll() returns (r: Result<seq<FontMeta>>)
      requires Valid()
      ensures lockDisposed <==> r.Err?
      ensures r.Err? ==> r.error == ObjectDisposed
      ensures r.Ok? ==> |r.value| == |byUid|
      ensures r.Ok? ==> forall f :: f in r.value <==> f in byUid.Values
      ensures r.Ok? ==> forall a, b :: 0 <= a < b < |r.value| ==> r.value[a].uid != r.value[b].uid
    {
      if lockDisposed {
        return Err(ObjectDisposed);
      }
      var values: seq<FontMeta> := [];
      var left := byUid.Keys;
      while left != {}
        invariant left <= byUid.Keys
        invariant |values| + |left| == |byUid|
        invariant forall f :: f in values <==> f.uid in byUid.Keys - left && byUid[f.uid] == f
        invariant forall a, b :: 0 <= a < b < |values| ==> values[a].uid != values[b].uid
        decreases |left|
      {
        var u :| u in left;
        assert byUid[u].uid == u;
        values := values + [byUid[u]];
        left := left - {u};
      }
      r := Ok(values);
    }

    /**
     * `Dispose(fromFinalizer)`: only the first call does anything, and only
     * outside the finalizer does it dispose the lock.
     */
    method DisposeCore(fromFinalizer: bool)
      requires Valid()
      modifies this
      ensures Valid()
      ensures disposeCounter == old(disposeCounter) + 1
      ensures lockDisposed == (old(lockDisposed) || (old(disposeCounter) == 0 && !fromFinalizer))
      ensures cache == old(cache) && byUid == old(byUid) && nextUid == old(nextUid)
    {
      disposeCounter := disposeCounter + 1;
      if disposeCounter > 1 {
        return;
      }
      if fromFinalizer {
        return;
      }
      lockDisposed := true;
    }

    /** `Dispose`: the first call disposes the lock; later calls only count. */
    method Dispose()
      requires Valid()
      modifies this
      ensures Valid()
      ensures lockDisposed == (old(lockDisposed) || old(disposeCounter) == 0)
      ensures disposeCounter == old(disposeCounter) + 1
      ensures cache == old(cache) && byUid == old(byUid) && nextUid == old(nextUid)
    {
      DisposeCore(false);
    }
  }

  /** A measurement found by name and size is found by its Uid as well. */
  lemma LookupThenGet(c: FontCache, fontName: string, fontSize: real)
    requires c.Valid() && c.Lookup(fontName, fontSize).Some?
    ensures FontGet(c.byUid, c.Lookup(fontName, fontSize).value.uid) == Ok(c.Lookup(fontName, fontSize).value)
  {
    var key := FoldAll(fontName);
    assert key in c.cache && fontSize in c.cache[key];
  }

  /** Font names that differ only in letter case share their cache entries. */
  lemma LookupIgnoresCase(c: FontCache, a: string, b: string, fontSize: real)
    requires EqualsIgnoreCase(a, b)
    ensures c.Lookup(a, fontSize) == c.Lookup(b, fontSize)
  {
  }
}
