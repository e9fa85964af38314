/** A block added in the editor: a fresh id, its type, and, for a type with items, the
  * default items of that type. Choice, picture choice, condition and WhatsApp list blocks
  * start with one empty item; a cards block with one item holding one path; an A/B test with
  * paths "a" and "b"; a WhatsApp carousel with two items with an image header and a URL
  * button, but no image url and no button.
  *
  * Fresh ids come from a supply, taken in the order they are created: the block's first. */
module ParseNewBlock {
  import opened Text
  import IC = InputConverter
  import CarouselSchemas

  datatype BlockType =
    | ChoiceInput | PictureChoiceInput | ConditionLogic | CardsInput | AbTestLogic
    | WhatsAppListInput | WhatsAppCarouselInput
    | OtherType(name: string)

  /** A default item: its id, the ids of its paths (cards), its path (A/B test) and its
    * carousel fields (WhatsApp carousel). */
  datatype Item = Item(id: string, pathIds: Option<seq<string>>, path: Option<string>,
                       carousel: Option<IC.CarouselItem>)

  /** The new block. `items` is absent for a type without items, and `Some(None)` when the
    * type has items but no defaults (the switch falls through to `undefined`). */
  datatype NewBlock = NewBlock(id: string, blockType: BlockType, items: Option<Option<seq<Item>>>)

  function Plain(id: string): Item
  {
    Item(id, None, None, None)
  }

  /** The stored value of a new carousel item: image header and URL button types, nothing
    * else. */
  const DefaultCarouselItem: IC.CarouselItem := IC.CarouselItem(Some("image"), None, None, Some("cta_url"), None, None)

  /** `parseDefaultItems`, drawing ids from `ids` in order. */
  function ParseDefaultItems(t: BlockType, ids: seq<string>): (r: Option<seq<Item>>)
    requires |ids| >= 2
    ensures r.None? <==> t.OtherType?
    ensures r.Some? ==> 1 <= |r.value| <= 2
  {
    match t
    case ChoiceInput => Some([Plain(ids[0])])
    case PictureChoiceInput => Some([Plain(ids[0])])
    case ConditionLogic => Some([Plain(ids[0])])
    case CardsInput => Some([Item(ids[0], Some([ids[1]]), None, None)])
    case AbTestLogic => Some([Item(ids[0], None, Some("a"), None), Item(ids[1], None, Some("b"), None)])
    case WhatsAppListInput => Some([Plain(ids[0])])
    case WhatsAppCarouselInput =>
      Some([Item(ids[0], None, None, Some(DefaultCarouselItem)), Item(ids[1], None, None, Some(DefaultCarouselItem))])
    case OtherType(_) => None
  }

  /** `parseNewBlock`; `hasItems` is what `blockTypeHasItems` says of the type. */
  function ParseNewBlock(t: BlockType, hasItems: bool, ids: seq<string>): (b: NewBlock)
    requires |ids| >= 3
    ensures b.id == ids[0] && b.blockType == t
    ensures b.items.Some? <==> hasItems
  {
    NewBlock(ids[0], t, if hasItems then Some(ParseDefaultItems(t, ids[1..])) else None)
  }

  /** Every id of the new block: its own, its items' and their paths'. */
  function BlockIds(b: NewBlock): seq<string>
  {
    [b.id] + (if b.items.Some? && b.items.value.Some? then ItemIds(b.items.value.value) else [])
  }

  function ItemIds(items: seq<Item>): seq<string>
    decreases |items|
  {
    if items == [] then []
    else ItemIds(items[..|items| - 1]) + [items[|items| - 1].id]
         + (if items[|items| - 1].pathIds.Some? then items[|items| - 1].pathIds.value else [])
  }

  /** The ids of the new block are the first ids of the supply, in order; so they are fresh
    * and distinct whenever the supply's are. */
  lemma NewBlockIdsComeFromTheSupply(t: BlockType, hasItems: bool, ids: seq<string>)
    requires |ids| >= 3
    ensures var b := ParseNewBlock(t, hasItems, ids);
            var n := |BlockIds(b)|;
            1 <= n <= 3 && BlockIds(b) == ids[..n]
    ensures Distinct(ids) ==> Distinct(BlockIds(ParseNewBlock(t, hasItems, ids)))
  {
    var b := ParseNewBlock(t, hasItems, ids);
    var rest := ids[1..];
    if hasItems && !t.OtherType? {
      var items := ParseDefaultItems(t, rest).value;
      if |items| == 1 {
        assert items[..0] == [];
        assert ItemIds(items) == [items[0].id] + (if items[0].pathIds.Some? then items[0].pathIds.value else []);
      } else {
        assert items[..1] == [items[0]];
        assert [items[0]][..0] == [];
        assert ItemIds([items[0]]) == [items[0].id];
      }
    }
    var n := |BlockIds(b)|;
    if Distinct(ids) {
      assert BlockIds(b) == ids[..n];
      forall i, j | 0 <= i < j < n ensures BlockIds(b)[i] != BlockIds(b)[j] {
        assert BlockIds(b)[i] == ids[i] && BlockIds(b)[j] == ids[j];
      }
    }
  }

  /** Choice, picture choice, condition and WhatsApp list blocks start with exactly one
    * item and no path. */
  lemma SingleDefaultItem(t: BlockType, ids: seq<string>)
    requires t == ChoiceInput || t == PictureChoiceInput || t == ConditionLogic || t == WhatsAppListInput
    requires |ids| >= 3
    ensures ParseNewBlock(t, true, ids).items == Some(Some([Plain(ids[1])]))
  {
  }

  /** A cards block starts with one item holding exactly one path. */
  lemma CardsStartWithOnePath(ids: seq<string>)
    requires |ids| >= 3
    ensures var items := ParseNewBlock(CardsInput, true, ids).items.value.value;
            |items| == 1 && items[0].pathIds == Some([ids[2]])
  {
  }

  /** An A/B test starts with two items, on paths "a" then "b". */
  lemma AbTestStartsWithPathsAB(ids: seq<string>)
    requires |ids| >= 3
    ensures var items := ParseNewBlock(AbTestLogic, true, ids).items.value.value;
            |items| == 2 && items[0].path == Some("a") && items[1].path == Some("b")
  {
  }

  /** A WhatsApp carousel starts with two items, each with an image header and a URL
    * button, and each valid for the carousel item schema. */
  lemma CarouselStartsWithTwoValidItems(ids: seq<string>)
    requires |ids| >= 3
    ensures var items := ParseNewBlock(WhatsAppCarouselInput, true, ids).items.value.value;
            && |items| == 2
            && items[0].carousel == Some(DefaultCarouselItem) && items[1].carousel == Some(DefaultCarouselItem)
            && DefaultCarouselItem.headerType == Some("image") && DefaultCarouselItem.buttonType == Some("cta_url")
            && CarouselSchemas.ValidCarouselItem(DefaultCarouselItem)
  {
    assert CarouselSchemas.IsHeaderType("image");
  }

  /** The two default carousel items do not reach the conversion's two-card minimum: with no
    * image url neither card has a header, so a carousel block left at its defaults sends
    * nothing. */
  lemma DefaultCarouselSendsNothing(bodyText: Option<string>, env: IC.Env, lastMessageText: Option<string>,
                                    selectLabel: Option<string>, upload: IC.Uploader)
    ensures var input := IC.WhatsAppCarousel(bodyText, [DefaultCarouselItem, DefaultCarouselItem]);
            && |IC.WithHeader(IC.CarouselCards([DefaultCarouselItem, DefaultCarouselItem]))| == 0
            && IC.ConvertInput(input, env, lastMessageText, selectLabel, upload) == Some([])
  {
    var items := [DefaultCarouselItem, DefaultCarouselItem];
    var cards := IC.CarouselCards(items);
    assert cards[0].header.None? && cards[1].header.None?;
    assert cards[..1][..0] == [];
    assert IC.WithHeader(cards[..1]) == [];
    assert IC.WithHeader(cards) == [];
  }
}
