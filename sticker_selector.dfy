/** The sticker picker: one button per catalog entry, a toggle on click,
    a "remove" action while something is selected, and a per-sticker flag
    recording that its preview image failed to load. */
module StickerSelector {
  import opened Common
  import Stickers

  /** `selectedSticker === sticker.id` */
  predicate IsSelected(selected: Option<string>, id: string) {
    selected == Some(id)
  }

  /** Clicking the button of sticker `id`: `onSelect(isSelected ? null : id)`. */
  function Toggle(selected: Option<string>, id: string): (next: Option<string>)
    ensures next.None? <==> IsSelected(selected, id)
    ensures next.Some? ==> next.value == id
  {
    if IsSelected(selected, id) then None else Some(id)
  }

  /** The "remove sticker" button is rendered only while the selection is truthy. */
  predicate ClearOffered(selected: Option<string>) {
    Truthy(selected)
  }

  /** The remove action: `onSelect(null)`. */
  function Clear(selected: Option<string>): (next: Option<string>)
    requires ClearOffered(selected)
    ensures next.None? && next != selected
  {
    None
  }

  /** Toggling one sticker twice from no selection returns to no selection;
      clicking another sticker switches straight to it; clicking the selected
      one deselects it. */
  lemma ToggleLaws(selected: Option<string>, id: string, other: string)
    ensures Toggle(Toggle(None, id), id) == None
    ensures selected == Some(other) && other != id ==> Toggle(selected, id) == Some(id)
    ensures Toggle(Some(id), id) == None
    ensures Toggle(Toggle(selected, id), id) == (if IsSelected(selected, id) then Some(id) else None)
  {
  }

  /** The check marks drawn over the buttons, in catalog order. */
  function Checkmarks(stickers: seq<Stickers.StickerConfig>, selected: Option<string>): (marks: seq<bool>)
    ensures |marks| == |stickers|
    ensures forall i :: 0 <= i < |stickers| ==> (marks[i] <==> IsSelected(selected, stickers[i].id))
  {
    if |stickers| == 0 then []
    else [IsSelected(selected, stickers[0].id)] + Checkmarks(stickers[1..], selected)
  }

  /** Over the catalog at most one button shows a check mark, and when the
      selection names a catalog sticker exactly that sticker's button does. */
  lemma {:induction false} AtMostOneCheckmark(selected: Option<string>, i: nat, j: nat)
    requires i < |Stickers.Catalog| && j < |Stickers.Catalog|
    ensures Checkmarks(Stickers.Catalog, selected)[i] && Checkmarks(Stickers.Catalog, selected)[j] ==> i == j
    ensures Checkmarks(Stickers.Catalog, selected)[i] <==> selected == Some(Stickers.Catalog[i].id)
  {
    Stickers.CatalogIds();
  }

  /** `imageErrors`: sticker id to "its preview failed to load". Entries are
      only ever set to true. */
  class ImageErrors {
    var flags: map<string, bool>

    ghost predicate Valid()
      reads this
    {
      forall id :: id in flags ==> flags[id]
    }

    constructor ()
      ensures Valid() && flags == map[]
    {
      flags := map[];
    }

    /** `imageErrors[id]` read as a boolean: a missing entry is falsy. */
    function HasError(id: string): (b: bool)
      reads this
      requires Valid()
      ensures b <==> id in flags
    {
      id in flags && flags[id]
    }

    /** `setImageErrors(prev => ({ ...prev, [id]: true }))` */
    method HandleImageError(id: string)
      requires Valid()
      modifies this
      ensures Valid()
      ensures flags == old(flags)[id := true]
      ensures HasError(id)
      ensures forall k :: k != id ==> (HasError(k) <==> old(HasError(k)))
    {
      flags := flags[id := true];
    }
  }
}
