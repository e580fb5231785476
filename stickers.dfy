/** The "Scan Me" sticker catalog: a fixed list of decorative backgrounds,
    each with the box (in percent of the background) where the square QR
    image is overlaid. Aspect ratios are exact rationals. */
module Stickers {
  import opened Common

  /** Overlay box, as percentages of the background's rendered box:
      `top` of its height, `left` and `width` of its width. */
  datatype QrPos = QrPos(top: real, left: real, width: real)

  /** One catalog entry. An omitted `popular` flag is falsy, so it is `false` here. */
  datatype StickerConfig = StickerConfig(
    id: string,
    name: string,
    description: string,
    preview: string,
    popular: bool,
    qrPos: QrPos,
    aspectRatio: real  // width / height of the background
  )

  const Catalog: seq<StickerConfig> := [
    StickerConfig("grid", "Quadrillé", "Motif quadrillé moderne", "/stickers/grid.svg",
                  true, QrPos(17.0, 14.0, 72.0), 600.0 / 700.0),
    StickerConfig("bubble", "Bulle", "Style message chat", "/stickers/bubble.svg",
                  true, QrPos(17.0, 14.0, 72.0), 600.0 / 700.0),
    StickerConfig("film", "Cinéma", "Clap de cinéma", "/stickers/film.svg",
                  false, QrPos(20.0, 14.0, 72.0), 600.0 / 700.0),
    StickerConfig("book", "Livre", "Livre ouvert", "/stickers/book.svg",
                  false, QrPos(17.0, 55.0, 35.0), 1.4),
    StickerConfig("beer", "Bière", "Pinte de bière", "/stickers/beer.svg",
                  false, QrPos(44.0, 33.0, 34.0), 0.8)
  ]

  function Ids(stickers: seq<StickerConfig>): (ids: seq<string>)
    ensures |ids| == |stickers|
    ensures forall i :: 0 <= i < |stickers| ==> ids[i] == stickers[i].id
  {
    seq(|stickers|, i requires 0 <= i < |stickers| => stickers[i].id)
  }

  ghost predicate DistinctIds(stickers: seq<StickerConfig>) {
    forall i, j :: 0 <= i < j < |stickers| ==> stickers[i].id != stickers[j].id
  }

  /** The overlay lies inside the background. Horizontally the overlay spans
      `left .. left + width` percent of the background width. The overlay is
      square, so its height is `width` percent of the background width, which
      is `width * aspectRatio` percent of the background height. */
  ghost predicate OverlayInside(s: StickerConfig) {
    && 0.0 <= s.qrPos.left
    && s.qrPos.left + s.qrPos.width <= 100.0
    && 0.0 <= s.qrPos.top < 100.0
    && 0.0 < s.qrPos.width
    && 0.0 < s.aspectRatio
    && s.qrPos.top + s.qrPos.width * s.aspectRatio <= 100.0
  }

  /** The catalog has five entries with the ids below, and no id twice. */
  lemma CatalogIds()
    ensures Ids(Catalog) == ["grid", "bubble", "film", "book", "beer"]
    ensures DistinctIds(Catalog)
  {
  }

  /** Every overlay, as authored, fits inside its background. */
  lemma CatalogGeometry()
    ensures forall i :: 0 <= i < |Catalog| ==> OverlayInside(Catalog[i])
  {
  }

  /** `stickers.find(s => s.id === id)`: the first entry with that id, if any. */
  function Find(stickers: seq<StickerConfig>, id: string): (r: Option<StickerConfig>)
    ensures r.None? <==> forall i :: 0 <= i < |stickers| ==> stickers[i].id != id
    ensures r.Some? ==> exists i :: 0 <= i < |stickers| && stickers[i] == r.value
                                   && forall j :: 0 <= j < i ==> stickers[j].id != id
    ensures r.Some? ==> r.value.id == id
  {
    if |stickers| == 0 then None
    else if stickers[0].id == id then Some(stickers[0])
    else
      var rest := Find(stickers[1..], id);
      if rest.Some? then
        ghost var k :| 0 <= k < |stickers[1..]| && stickers[1..][k] == rest.value
                      && forall j :: 0 <= j < k ==> stickers[1..][j].id != id;
        assert stickers[k + 1] == rest.value;
        rest
      else rest
  }

  /** With distinct ids, the lookup returns exactly the entry carrying the id. */
  lemma {:induction false} FindUnique(stickers: seq<StickerConfig>, id: string, s: StickerConfig)
    requires DistinctIds(stickers)
    ensures Find(stickers, id) == Some(s) <==> s in stickers && s.id == id
  {
  }

  /** Lookup in the catalog: each of the five ids finds its own entry, any
      other id finds nothing. */
  lemma CatalogFind(id: string)
    ensures id == "grid" ==> Find(Catalog, id) == Some(Catalog[0])
    ensures id == "bubble" ==> Find(Catalog, id) == Some(Catalog[1])
    ensures id == "film" ==> Find(Catalog, id) == Some(Catalog[2])
    ensures id == "book" ==> Find(Catalog, id) == Some(Catalog[3])
    ensures id == "beer" ==> Find(Catalog, id) == Some(Catalog[4])
    ensures id !in Ids(Catalog) ==> Find(Catalog, id).None?
  {
  }
}
