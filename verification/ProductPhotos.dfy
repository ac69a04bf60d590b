/**
 * Photo changes of a saved product (productController.js applyProductPhotoEdits), through a
 * gallery layout, file uploads or the removal of the cover. Addresses are
 * only compared, so they are numbers here.
 */
module ProductPhotos {
  import opened Wrappers

  datatype Url = NoPhoto | At(n: nat)

  /** A slot of the wanted gallery: a saved photo to keep, or the place of the next upload. */
  datatype Slot = New | Photo(url: Url)

  datatype Edit = Edit(layout: Option<seq<Slot>>, uploads: seq<Url>, cover: Url, removeCover: bool)

  datatype Photos = Photos(cover: Url, gallery: seq<Url>)

  const MAX_GALLERY := 4

  predicate AllUrls(urls: seq<Url>) {
    forall u :: u in urls ==> u != NoPhoto
  }

  // ---------------------------------------------------------------------------
  // The new gallery
  // ---------------------------------------------------------------------------

  /** The layout filled in, with the uploads it left over at the end. */
  function Arrange(layout: seq<Slot>, saved: seq<Url>, pending: seq<Url>): seq<Url> {
    if layout == [] then pending
    else match layout[0]
      case New => if pending == [] then Arrange(layout[1..], saved, []) else [pending[0]] + Arrange(layout[1..], saved, pending[1..])
      case Photo(u) => if u in saved then [u] + Arrange(layout[1..], saved, pending) else Arrange(layout[1..], saved, pending)
  }

  /** The photos after the cover, before a missing cover is filled. */
  function Wanted(e: Edit, p: Photos): seq<Url> {
    match e.layout
    case Some(layout) => Arrange(layout, p.gallery, e.uploads)
    case None => p.gallery + e.uploads
  }

  function WantedCover(e: Edit, p: Photos): Url {
    if e.cover != NoPhoto then e.cover else if e.removeCover then NoPhoto else p.cover
  }

  /** The photos after the edit: with no cover, the first of the gallery becomes it. */
  function Edited(e: Edit, p: Photos): Photos {
    var cover, gallery := WantedCover(e, p), Wanted(e, p);
    if cover == NoPhoto && gallery != [] then Photos(gallery[0], gallery[1..]) else Photos(cover, gallery)
  }

  // ---------------------------------------------------------------------------
  // What an edit keeps
  // ---------------------------------------------------------------------------

  function Only(urls: seq<Url>, saved: seq<Url>, keep: bool): seq<Url> {
    if urls == [] then []
    else if (urls[0] in saved) == keep then [urls[0]] + Only(urls[1..], saved, keep)
    else Only(urls[1..], saved, keep)
  }

  /** The saved photos a layout names, in its order. */
  function Named(layout: seq<Slot>, saved: seq<Url>): seq<Url> {
    if layout == [] then []
    else if layout[0].Photo? && layout[0].url in saved then [layout[0].url] + Named(layout[1..], saved)
    else Named(layout[1..], saved)
  }

  function Retained(e: Edit, p: Photos): seq<Url> {
    match e.layout
    case Some(layout) => Named(layout, p.gallery)
    case None => p.gallery
  }

  /** Uploads get addresses of their own. */
  ghost predicate Apart(uploads: seq<Url>, saved: seq<Url>) {
    forall u :: u in uploads ==> u !in saved
  }

  lemma {:induction false} OnlyAll(urls: seq<Url>, saved: seq<Url>, keep: bool)
    requires forall u :: u in urls ==> (u in saved) == keep
    ensures Only(urls, saved, keep) == urls && Only(urls, saved, !keep) == []
  {
    if urls != [] { OnlyAll(urls[1..], saved, keep); }
  }

  lemma OnlyCons(u: Url, urls: seq<Url>, saved: seq<Url>, keep: bool)
    ensures Only([u] + urls, saved, keep) == if (u in saved) == keep then [u] + Only(urls, saved, keep) else Only(urls, saved, keep)
  {
  }

  lemma ConsConcat(u: Url, a: seq<Url>, b: seq<Url>)
    ensures [u] + (a + b) == [u] + a + b
  {
  }

  lemma {:induction false} OnlyConcat(a: seq<Url>, b: seq<Url>, saved: seq<Url>, keep: bool)
    ensures Only(a + b, saved, keep) == Only(a, saved, keep) + Only(b, saved, keep)
  {
    if a == [] {
      assert a + b == b;
    } else {
      hide Only;
      OnlyConcat(a[1..], b, saved, keep);
      OnlyCons(a[0], a[1..], saved, keep);
      OnlyCons(a[0], a[1..] + b, saved, keep);
      ConsConcat(a[0], Only(a[1..], saved, keep), Only(b, saved, keep));
      ConsConcat(a[0], a[1..], b);
      assert a == [a[0]] + a[1..];
    }
  }

  lemma {:induction false} ArrangeKeeps(layout: seq<Slot>, saved: seq<Url>, pending: seq<Url>)
    requires Apart(pending, saved)
    ensures Only(Arrange(layout, saved, pending), saved, false) == pending
    ensures Only(Arrange(layout, saved, pending), saved, true) == Named(layout, saved)
    ensures |Arrange(layout, saved, pending)| == |Named(layout, saved)| + |pending|
  {
    if layout == [] {
      OnlyAll(pending, saved, false);
    } else {
      var rest := if layout[0].New? && pending != [] then pending[1..] else pending;
      ArrangeKeeps(layout[1..], saved, rest);
      var tail := Arrange(layout[1..], saved, rest);
      if layout[0].New? && pending != [] {
        OnlyCons(pending[0], tail, saved, true);
        OnlyCons(pending[0], tail, saved, false);
      } else if layout[0].Photo? {
        OnlyCons(layout[0].url, tail, saved, true);
        OnlyCons(layout[0].url, tail, saved, false);
      }
    }
  }

  /** All photos of the product in order, the cover first if it is new from the gallery. */
  function Shown(e: Edit, p: Photos): seq<Url> {
    if WantedCover(e, p) == NoPhoto && Edited(e, p).cover != NoPhoto then [Edited(e, p).cover] + Edited(e, p).gallery
    else Edited(e, p).gallery
  }

  /**
   * No upload is dropped: each appears exactly once, as cover or in the gallery, in upload
   * order. The other photos are the retained ones, in the order asked for; slots for more
   * uploads than there are vanish.
   */
  lemma NothingDropped(e: Edit, p: Photos)
    requires Apart(e.uploads, p.gallery) && AllUrls(e.uploads) && AllUrls(p.gallery)
    ensures Only(Shown(e, p), p.gallery, false) == e.uploads
    ensures Only(Shown(e, p), p.gallery, true) == Retained(e, p)
    ensures |Shown(e, p)| == |Retained(e, p)| + |e.uploads|
    ensures Edited(e, p).cover == NoPhoto ==> Edited(e, p).gallery == []
  {
    var wanted := Wanted(e, p);
    match e.layout {
      case Some(layout) => ArrangeKeeps(layout, p.gallery, e.uploads);
      case None =>
        OnlyConcat(p.gallery, e.uploads, p.gallery, true);
        OnlyConcat(p.gallery, e.uploads, p.gallery, false);
        OnlyAll(p.gallery, p.gallery, true);
        OnlyAll(e.uploads, p.gallery, false);
    }
    if WantedCover(e, p) == NoPhoto && wanted != [] {
      WantedUrls(e, p);
      assert wanted[0] in wanted;
      assert Shown(e, p) == wanted;
    }
  }

  lemma WantedUrls(e: Edit, p: Photos)
    requires AllUrls(e.uploads) && AllUrls(p.gallery)
    ensures AllUrls(Wanted(e, p))
  {
    if e.layout.Some? { ArrangeUrls(e.layout.value, p.gallery, e.uploads); }
  }

  lemma {:induction false} ArrangeUrls(layout: seq<Slot>, saved: seq<Url>, pending: seq<Url>)
    requires AllUrls(pending) && AllUrls(saved)
    ensures AllUrls(Arrange(layout, saved, pending))
  {
    if layout != [] {
      var rest := if layout[0].New? && pending != [] then pending[1..] else pending;
      assert forall u :: u in rest ==> u in pending;
      ArrangeUrls(layout[1..], saved, rest);
      assert pending != [] ==> pending[0] in pending;
    }
  }

  /** With the cover kept and nothing uploaded, the edit changes nothing exactly when the layout names the gallery as it is. */
  lemma UnchangedIff(e: Edit, p: Photos)
    requires e.uploads == [] && e.cover == NoPhoto && !e.removeCover && p.cover != NoPhoto
    ensures Edited(e, p) == p <==> Retained(e, p) == p.gallery
  {
    if e.layout.Some? { ArrangeNamed(e.layout.value, p.gallery); }
  }

  lemma {:induction false} ArrangeNamed(layout: seq<Slot>, saved: seq<Url>)
    ensures Arrange(layout, saved, []) == Named(layout, saved)
  {
    if layout != [] { ArrangeNamed(layout[1..], saved); }
  }

  function Slots(urls: seq<Url>): seq<Slot> {
    if urls == [] then [] else [Photo(urls[0])] + Slots(urls[1..])
  }

  /** The layout that lists the gallery as saved names it as it is. */
  lemma {:induction false} SameLayoutNamesGallery(urls: seq<Url>, saved: seq<Url>)
    requires forall u :: u in urls ==> u in saved
    ensures Named(Slots(urls), saved) == urls
  {
    if urls != [] {
      SameLayoutNamesGallery(urls[1..], saved);
      assert Slots(urls)[1..] == Slots(urls[1..]);
    }
  }

  /** A layout may name a saved photo twice: it is then stored twice. */
  lemma NamedTwiceStoredTwice(p: Photos, url: Url)
    requires url in p.gallery && p.cover != NoPhoto
    ensures Edited(Edit(Some([Photo(url), Photo(url)]), [], NoPhoto, false), p) == Photos(p.cover, [url, url])
  {
    var layout := [Photo(url), Photo(url)];
    assert layout[1..] == [Photo(url)] && layout[1..][1..] == [];
    assert Arrange(layout[1..][1..], p.gallery, []) == [];
    assert Arrange(layout[1..], p.gallery, []) == [url];
  }

  // ---------------------------------------------------------------------------
  // The handler
  // ---------------------------------------------------------------------------

  class PhotoDesk {
    var photos: Photos

    constructor (p: Photos)
      ensures photos == p
    {
      photos := p;
    }

    /** layout.map with pendingUploads.shift(), then what is left over. */
    method Fill(layout: seq<Slot>, uploads: seq<Url>) returns (gallery: seq<Url>)
      ensures gallery == Arrange(layout, photos.gallery, uploads)
    {
      gallery := [];
      var pending, i := uploads, 0;
      while i < |layout|
        invariant 0 <= i <= |layout|
        invariant gallery + Arrange(layout[i..], photos.gallery, pending) == Arrange(layout, photos.gallery, uploads)
      {
        assert layout[i..][0] == layout[i] && layout[i..][1..] == layout[i + 1..];
        if layout[i].New? {
          if pending != [] { gallery, pending := gallery + [pending[0]], pending[1..]; }
        } else if layout[i].url in photos.gallery {
          gallery := gallery + [layout[i].url];
        }
        i := i + 1;
      }
      gallery := gallery + pending;
    }

    /** Nothing is written when the gallery would grow past its limit, nor what does not change. */
    method ApplyPhotoEdits(e: Edit) returns (ok: bool, wroteCover: bool, wroteGallery: bool)
      modifies this
      ensures ok <==> (Edited(e, old(photos)).gallery == old(photos).gallery || |Edited(e, old(photos)).gallery| <= MAX_GALLERY)
      ensures photos == if ok then Edited(e, old(photos)) else old(photos)
      ensures wroteCover <==> photos.cover != old(photos).cover
      ensures wroteGallery <==> photos.gallery != old(photos).gallery
    {
      var gallery: seq<Url>;
      if e.layout.Some? {
        gallery := Fill(e.layout.value, e.uploads);
      } else {
        gallery := photos.gallery + e.uploads;
      }
      var cover := if e.cover != NoPhoto then e.cover else if e.removeCover then NoPhoto else photos.cover;
      if cover == NoPhoto && gallery != [] { cover, gallery := gallery[0], gallery[1..]; }
      wroteGallery := gallery != photos.gallery;
      if wroteGallery && |gallery| > MAX_GALLERY { return false, false, false; }
      wroteCover := cover != photos.cover;
      ok, photos := true, Photos(cover, gallery);
    }
  }
}
