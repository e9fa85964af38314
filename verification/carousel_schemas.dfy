/** The validators of the two carousel input blocks: the WhatsApp carousel (items with an
  * optional image or video header, a short body and either a URL button or up to two quick
  * replies) and the media carousel (cards with a required header and either a URL button or
  * one to three quick replies). A validator accepts or rejects a block's stored value; the
  * WhatsApp carousel items are the same records the message conversion reads. */
module CarouselSchemas {
  import opened Text
  import IC = InputConverter
  import Schemas = ExtendedSchemas

  predicate IsHeaderType(s: string)
  {
    s == "image" || s == "video"
  }

  // ----- WhatsApp carousel -----

  predicate ValidCarouselCtaButton(b: IC.CtaButton)
  {
    b.displayText.Some? && |b.displayText.value| <= 20
  }

  predicate ValidQuickReplies(buttons: seq<IC.QuickReplyButton>)
  {
    |buttons| <= 2 && forall k :: 0 <= k < |buttons| ==> |buttons[k].title| <= 20
  }

  /** A carousel item: header type image or video (or none), body at most 160, button type
    * cta_url or quick_reply (or none), a URL button with a display text of at most 20, and at
    * most two quick replies titled with at most 20 characters. Nothing ties the header url
    * or the button data to the types. */
  predicate ValidCarouselItem(item: IC.CarouselItem)
  {
    && (item.headerType.Some? ==> IsHeaderType(item.headerType.value))
    && Schemas.OptionalAtMost(item.bodyText, 160)
    && (item.buttonType.Some? ==> item.buttonType.value == "cta_url" || item.buttonType.value == "quick_reply")
    && (item.ctaUrlButton.Some? ==> ValidCarouselCtaButton(item.ctaUrlButton.value))
    && (item.quickReplyButtons.Some? ==> ValidQuickReplies(item.quickReplyButtons.value))
  }

  /** The carousel options: an optional body text of at most 1024 characters. */
  predicate ValidCarouselOptions(bodyText: Option<string>)
  {
    Schemas.OptionalAtMost(bodyText, 1024)
  }

  /** On a valid item the conversion's cuts change nothing: the card keeps the body, the URL
    * button text (falling back to "Visit" only when it is empty) and every quick reply as
    * stored, and a header, when there is one, is an image or a video. */
  lemma ValidItemConvertsUncut(item: IC.CarouselItem, index: nat)
    requires ValidCarouselItem(item)
    ensures var c := IC.CardOf(item, index);
            && c.body == (if Truthy(item.bodyText) then item.bodyText else None)
            && (c.header.Some? ==> IsHeaderType(c.header.value.kind) && c.header.value.link == item.headerUrl.value)
            && (c.action.Some? && c.action.value.CarouselCta? ==>
                  c.action.value.displayText == OrElse(item.ctaUrlButton.value.displayText, "Visit")
                  && c.action.value.url == item.ctaUrlButton.value.url)
            && (c.action.Some? && c.action.value.CarouselQuickReplies? ==>
                  var bs := item.quickReplyButtons.value;
                  c.action.value.buttons == seq(|bs|, k requires 0 <= k < |bs| => IC.ReplyButton(bs[k].id, bs[k].title)))
  {
    var c := IC.CardOf(item, index);
    if c.action.Some? && c.action.value.CarouselQuickReplies? {
      var bs := item.quickReplyButtons.value;
      assert FirstN(bs, 2) == bs;
    }
  }

  /** On valid options the carousel body is the stored text, or the default, uncut. */
  lemma ValidOptionsKeepBody(bodyText: Option<string>, items: seq<IC.CarouselItem>)
    requires ValidCarouselOptions(bodyText)
    ensures var r := IC.CarouselMessages(bodyText, items);
            r != [] ==> r[0].carouselBody == OrElse(bodyText, "Choose an option below:")
  {
  }

  // ----- media carousel -----

  datatype MediaQuickReply = MediaQuickReply(id: string, title: string)

  /** The buttons of a media card, discriminated by their type: a URL button or a list of
    * quick replies. */
  datatype MediaButtons = UrlButton(displayText: string, url: string) | QuickReplyButtons(buttons: seq<MediaQuickReply>)

  datatype MediaCard = MediaCard(id: string, headerType: string, headerUrl: string, title: Option<string>,
                                 bodyText: Option<string>, buttons: MediaButtons)

  datatype MediaCarouselOptions = MediaCarouselOptions(bodyText: string, cards: seq<MediaCard>)

  predicate ValidMediaButtons(b: MediaButtons)
  {
    b.QuickReplyButtons? ==> 1 <= |b.buttons| <= 3
  }

  /** A media card needs an image or video header type; its url is any string. */
  predicate ValidMediaCard(c: MediaCard)
  {
    IsHeaderType(c.headerType) && ValidMediaButtons(c.buttons)
  }

  /** Between zero and ten valid cards. */
  predicate ValidMediaCarouselOptions(o: MediaCarouselOptions)
  {
    |o.cards| <= 10 && forall i :: 0 <= i < |o.cards| ==> ValidMediaCard(o.cards[i])
  }

  /** The number of buttons on a card: one URL button or its quick replies. */
  function ButtonCount(c: MediaCard): (n: nat)
    ensures ValidMediaCard(c) ==> 1 <= n <= 3
  {
    if c.buttons.UrlButton? then 1 else |c.buttons.buttons|
  }

  function TotalButtons(cards: seq<MediaCard>): nat
    decreases |cards|
  {
    if cards == [] then 0 else TotalButtons(cards[..|cards| - 1]) + ButtonCount(cards[|cards| - 1])
  }

  /** Every card of valid options carries a button, and the options carry at most thirty. */
  lemma {:induction false} ValidMediaCarouselButtonBounds(cards: seq<MediaCard>)
    requires forall i :: 0 <= i < |cards| ==> ValidMediaCard(cards[i])
    ensures |cards| <= TotalButtons(cards) <= 3 * |cards|
    decreases |cards|
  {
    if cards != [] {
      ValidMediaCarouselButtonBounds(cards[..|cards| - 1]);
      assert ButtonCount(cards[|cards| - 1]) <= 3;
    }
  }

  /** Valid media-carousel options carry between zero and thirty buttons. */
  lemma ValidMediaCarouselHoldsAtMostThirtyButtons(o: MediaCarouselOptions)
    requires ValidMediaCarouselOptions(o)
    ensures TotalButtons(o.cards) <= 30
  {
    ValidMediaCarouselButtonBounds(o.cards);
  }

  /** A quick-reply card with three buttons passes the media-carousel schema, while a
    * WhatsApp carousel item with three quick replies fails its schema (and the conversion
    * would keep two of them). */
  lemma QuickReplyLimitsDiffer(id: string, url: string, b: MediaQuickReply)
    ensures ValidMediaCard(MediaCard(id, "image", url, None, None, QuickReplyButtons([b, b, b])))
    ensures var q := IC.QuickReplyButton(b.id, "");
            !ValidCarouselItem(IC.CarouselItem(None, None, None, None, None, Some([q, q, q])))
  {
  }
}
