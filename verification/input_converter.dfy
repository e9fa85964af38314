/** The conversion of a flow's input block into the WhatsApp messages that ask for it:
  * nothing for free-text inputs, numbered texts or one button message per picture, numbered
  * text or grouped reply buttons for choices, one button message per card, a CTA-URL button,
  * an interactive list, and a carousel of media cards.
  *
  * The environment switches (group size, list and CTA flags, the default choice modes and
  * the default select label) are a parameter, and so is the media upload: with a media cache
  * a picture goes out by the id the upload returns, otherwise (or when the upload gives
  * nothing) by its link. */
module InputConverter {
  import opened Text
  import opened ButtonTitles
  import Schemas = ExtendedSchemas

  datatype Media = MediaId(id: string) | MediaLink(link: string)
  datatype Header = ImageHeader(image: Media) | TextHeader(text: string)
  datatype ReplyButton = ReplyButton(id: string, title: string)
  datatype CarouselHeader = CarouselHeader(kind: string, link: string)
  datatype CarouselAction = CarouselCta(displayText: string, url: string) | CarouselQuickReplies(buttons: seq<ReplyButton>)
  datatype CarouselCard = CarouselCard(cardIndex: nat, cardType: Option<string>, header: Option<CarouselHeader>,
                                       body: Option<string>, action: Option<CarouselAction>)

  /** The messages the converter sends. */
  datatype Message =
    | PlainText(content: string)
    | Picture(image: Media)
    | Buttons(header: Option<Header>, body: Option<string>, buttons: seq<ReplyButton>)
    | CtaUrl(ctaHeader: Option<Header>, ctaBody: string, footer: Option<string>, displayText: string, url: string)
    | List(list: Schemas.ListMessage)
    | Carousel(carouselBody: string, cards: seq<CarouselCard>)

  datatype NoReplyKind = Date | Time | Email | File | Number | Phone | Url | Payment | Rating | TextInput

  datatype PictureItem = PictureItem(id: string, title: Option<string>, description: Option<string>,
                                     pictureSrc: Option<string>)
  datatype ChoiceItem = ChoiceItem(id: string, content: Option<string>)
  datatype CardPath = CardPath(id: string, text: Option<string>)
  datatype CardItem = CardItem(title: Option<string>, description: Option<string>, imageUrl: Option<string>,
                               paths: Option<seq<CardPath>>)
  datatype CtaOptions = CtaOptions(url: Option<string>, bodyText: Option<string>, headerType: Option<string>,
                                   headerText: Option<string>, headerImageUrl: Option<string>,
                                   footerText: Option<string>, displayText: Option<string>)
  datatype ListItem = ListItem(id: string, content: Option<string>, sectionTitle: Option<string>,
                               description: Option<string>)
  datatype ListOptions = ListOptions(listHeader: Option<string>, listFooter: Option<string>, buttonLabel: Option<string>)
  datatype CtaButton = CtaButton(displayText: Option<string>, url: string)
  datatype QuickReplyButton = QuickReplyButton(id: string, title: string)
  datatype CarouselItem = CarouselItem(headerType: Option<string>, headerUrl: Option<string>, bodyText: Option<string>,
                                       buttonType: Option<string>, ctaUrlButton: Option<CtaButton>,
                                       quickReplyButtons: Option<seq<QuickReplyButton>>)

  /** An input block. `OtherInput` stands for the block types the conversion has no case for. */
  datatype Input =
    | NoReplyInput(kind: NoReplyKind)
    | PictureChoice(pictureMultiple: Option<bool>, pictureItems: seq<PictureItem>)
    | Choice(choiceMultiple: Option<bool>, choiceItems: seq<ChoiceItem>)
    | Cards(cardItems: seq<CardItem>)
    | CtaUrlInput(ctaOptions: Option<CtaOptions>)
    | WhatsAppList(listOptions: Option<ListOptions>, listItems: seq<ListItem>)
    | WhatsAppCarousel(carouselBodyText: Option<string>, carouselItems: seq<CarouselItem>)
    | OtherInput

  datatype Env = Env(groupSize: int, ctaEnabled: bool, listEnabled: bool, pictureMultipleDefault: bool,
                     choiceMultipleDefault: bool, defaultSelectLabel: string)

  /** The media upload: absent without a media cache; otherwise the id an upload gives, if any.
    * An empty id counts as none, so the picture falls back to its link. */
  type Uploader = Option<string -> Option<string>>

  function MediaFor(url: string, upload: Uploader): (r: Media)
    ensures r.MediaLink? ==> r.link == url
    ensures r.MediaId? ==> r.id != "" && upload.Some? && upload.value(url) == Some(r.id)
    ensures r.MediaLink? <==> upload.None? || !Truthy(upload.value(url))
  {
    if upload.Some? && Truthy(upload.value(url)) then MediaId(upload.value(url).value) else MediaLink(url)
  }

  /** The body shared by picture choices and cards: the bold title, a blank line, then the
    * description, each part only when it is not empty. */
  function ItemBody(title: Option<string>, description: Option<string>): (r: string)
    ensures r == "" <==> !Truthy(title) && !Truthy(description)
  {
    (if Truthy(title) then "*" + title.value + "*" else "")
    + (if Truthy(description) then (if Truthy(title) then "\n\n" else "") + description.value else "")
  }

  /** `${n}. ${text}`. */
  function Numbered(n: nat, text: string): string
  {
    NatToString(n) + ". " + text
  }

  // ----- picture choice -----

  /** The text of item `idx`: its body numbered `idx + 1`. */
  function ItemText(item: PictureItem, idx: nat): string
  {
    Numbered(idx + 1, ItemBody(item.title, item.description))
  }

  /** The messages of item `idx` of a multiple picture choice: its picture, if any, then its
    * numbered text. */
  function PictureItemMessages(item: PictureItem, idx: nat, upload: Uploader): (r: seq<Message>)
    ensures 1 <= |r| <= 2 && r[|r| - 1] == PlainText(ItemText(item, idx))
    ensures |r| == 2 <==> Truthy(item.pictureSrc)
  {
    (if Truthy(item.pictureSrc) then [Picture(MediaFor(item.pictureSrc.value, upload))] else [])
    + [PlainText(ItemText(item, idx))]
  }

  function PictureListMessages(items: seq<PictureItem>, upload: Uploader): seq<Message>
    decreases |items|
  {
    if items == [] then []
    else PictureListMessages(items[..|items| - 1], upload) + PictureItemMessages(items[|items| - 1], |items| - 1, upload)
  }

  function TextsOf(ms: seq<Message>): seq<string>
    decreases |ms|
  {
    if ms == [] then []
    else TextsOf(ms[..|ms| - 1]) + (if ms[|ms| - 1].PlainText? then [ms[|ms| - 1].content] else [])
  }

  lemma {:induction false} TextsOfAppend(a: seq<Message>, b: seq<Message>)
    ensures TextsOf(a + b) == TextsOf(a) + TextsOf(b)
    decreases |b|
  {
    if b == [] {
      assert a + b == a;
    } else {
      assert (a + b)[..|a + b| - 1] == a + b[..|b| - 1];
      TextsOfAppend(a, b[..|b| - 1]);
    }
  }

  /** The text of an item's messages is its numbered body, whether or not a picture
    * precedes it. */
  lemma PictureItemText(item: PictureItem, idx: nat, upload: Uploader)
    ensures TextsOf(PictureItemMessages(item, idx, upload)) == [ItemText(item, idx)]
  {
    var m := PictureItemMessages(item, idx, upload);
    if |m| == 2 {
      assert m[..1] == [m[0]];
      assert [m[0]][..0] == [];
      assert TextsOf([m[0]]) == [];
      assert TextsOf(m) == TextsOf(m[..1]) + [m[1].content];
    } else {
      assert m[..0] == [];
    }
  }

  /** A multiple picture choice sends one numbered text per item, numbered 1 to n in item
    * order (pictures go in between). */
  lemma {:induction false} PictureListNumbersEveryItem(items: seq<PictureItem>, upload: Uploader)
    ensures var t := TextsOf(PictureListMessages(items, upload));
            && |t| == |items|
            && forall i :: 0 <= i < |items| ==> t[i] == ItemText(items[i], i)
    decreases |items|
  {
    if items != [] {
      var n := |items| - 1;
      var a, b := PictureListMessages(items[..n], upload), PictureItemMessages(items[n], n, upload);
      assert PictureListMessages(items, upload) == a + b;
      PictureListNumbersEveryItem(items[..n], upload);
      TextsOfAppend(a, b);
      PictureItemText(items[n], n, upload);
      var t0 := TextsOf(a);
      var t := TextsOf(a + b);
      assert t == t0 + [ItemText(items[n], n)];
      SplitLast(items);
      NumbersItemsSnoc(t0, items[..n], items[n]);
    }
  }

  /** `t` holds the text of each item, in order. */
  predicate NumbersItems(t: seq<string>, items: seq<PictureItem>)
  {
    |t| == |items| && forall i :: 0 <= i < |items| ==> t[i] == ItemText(items[i], i)
  }

  lemma NumbersItemsSnoc(t: seq<string>, items: seq<PictureItem>, item: PictureItem)
    requires NumbersItems(t, items)
    ensures NumbersItems(t + [ItemText(item, |items|)], items + [item])
  {
  }

  /** The body text of a picture item or card, built as the source builds it. */
  method BuildBodyText(title: Option<string>, description: Option<string>) returns (bodyText: string)
    ensures bodyText == ItemBody(title, description)
  {
    bodyText := "";
    if Truthy(title) {
      bodyText := bodyText + "*" + title.value + "*";
    }
    if Truthy(description) {
      if Truthy(title) {
        bodyText := bodyText + "\n\n";
      }
      bodyText := bodyText + description.value;
    }
  }

  /** The loop of the multiple picture choice. */
  method PictureListLoop(items: seq<PictureItem>, upload: Uploader) returns (messages: seq<Message>)
    ensures messages == PictureListMessages(items, upload)
  {
    messages := [];
    for idx := 0 to |items|
      invariant messages == PictureListMessages(items[..idx], upload)
    {
      var itemMessages := PictureItemPass(items[idx], idx, upload);
      messages := messages + itemMessages;
      assert items[..idx + 1][..idx] == items[..idx];
    }
    assert items[..|items|] == items;
  }

  /** One pass of the multiple picture choice loop: the item's picture, if any, then its
    * numbered text. */
  method PictureItemPass(item: PictureItem, idx: nat, upload: Uploader) returns (messages: seq<Message>)
    ensures messages == PictureItemMessages(item, idx, upload)
  {
    messages := [];
    var bodyText := BuildBodyText(item.title, item.description);
    if Truthy(item.pictureSrc) {
      var image := MediaFor(item.pictureSrc.value, upload);
      messages := messages + [Picture(image)];
    }
    messages := messages + [PlainText(Numbered(idx + 1, bodyText))];
  }

  /** The button message of one item of a single picture choice: the picture as header,
    * the body when it is not empty, and one button labelled with the select label. */
  function PictureButtonMessage(item: PictureItem, upload: Uploader, selectText: string): (r: Message)
    ensures r.Buttons? && r.buttons == [ReplyButton(item.id, selectText)]
    ensures r.header.Some? <==> Truthy(item.pictureSrc)
    ensures r.body.None? <==> !Truthy(item.title) && !Truthy(item.description)
  {
    var bodyText := ItemBody(item.title, item.description);
    Buttons(
      header := if Truthy(item.pictureSrc) then Some(ImageHeader(MediaFor(item.pictureSrc.value, upload))) else None,
      body := if bodyText == "" then None else Some(bodyText),
      buttons := [ReplyButton(item.id, selectText)])
  }

  /** The loop of the single picture choice: one button message per item, in order. */
  method PictureButtonsLoop(items: seq<PictureItem>, upload: Uploader, selectText: string) returns (messages: seq<Message>)
    ensures |messages| == |items|
    ensures forall i :: 0 <= i < |items| ==> messages[i] == PictureButtonMessage(items[i], upload, selectText)
  {
    messages := [];
    for idx := 0 to |items|
      invariant |messages| == idx
      invariant forall i :: 0 <= i < idx ==> messages[i] == PictureButtonMessage(items[i], upload, selectText)
    {
      var item := items[idx];
      var bodyText := BuildBodyText(item.title, item.description);
      var header: Option<Header> := None;
      if Truthy(item.pictureSrc) {
        header := Some(ImageHeader(MediaFor(item.pictureSrc.value, upload)));
      }
      var body := if bodyText == "" then None else Some(bodyText);
      messages := messages + [Buttons(header, body, [ReplyButton(item.id, selectText)])];
    }
  }

  // ----- choice -----

  /** `${item.content}`: an absent content renders as "undefined". */
  function ContentText(content: Option<string>): string
  {
    if content.Some? then content.value else "undefined"
  }

  /** The one text of a multiple choice: the last message text and a blank line when there
    * is one, then the items numbered 1 to n, one per line. */
  function ChoiceListText(items: seq<ChoiceItem>, lastMessageText: Option<string>): (r: Message)
    ensures r.PlainText?
    ensures var lines := Join(seq(|items|, i requires 0 <= i < |items| => Numbered(i + 1, ContentText(items[i].content))), '\n');
            r.content == (if Truthy(lastMessageText) then lastMessageText.value + "\n\n" + lines else lines)
  {
    var lines := Join(seq(|items|, i requires 0 <= i < |items| => Numbered(i + 1, ContentText(items[i].content))), '\n');
    PlainText(if Truthy(lastMessageText) then lastMessageText.value + "\n\n" + lines else lines)
  }

  /** `items.filter((item) => isDefined(item.content))`. */
  function DefinedChoices(items: seq<ChoiceItem>): (r: seq<ChoiceItem>)
    ensures forall i :: 0 <= i < |r| ==> r[i].content.Some? && r[i] in items
    decreases |items|
  {
    if items == [] then []
    else
      var rest := DefinedChoices(items[..|items| - 1]);
      if items[|items| - 1].content.Some? then rest + [items[|items| - 1]] else rest
  }

  /** `items.filter((item) => item.content)`. */
  function NonEmptyChoices(items: seq<ChoiceItem>): (r: seq<ChoiceItem>)
    ensures |r| <= |items|
    ensures forall i :: 0 <= i < |r| ==> Truthy(r[i].content) && r[i] in items
    decreases |items|
  {
    if items == [] then []
    else
      var rest := NonEmptyChoices(items[..|items| - 1]);
      if Truthy(items[|items| - 1].content) then rest + [items[|items| - 1]] else rest
  }

  /** The titles of some buttons, in order. */
  function TitlesOf(buttons: seq<ReplyButton>): seq<string>
  {
    seq(|buttons|, i requires 0 <= i < |buttons| => buttons[i].title)
  }

  /** The texts of some card paths, an absent text counting as empty. */
  function PathTexts(ps: seq<CardPath>): (t: seq<string>)
    ensures |t| == |ps|
  {
    seq(|ps|, i requires 0 <= i < |ps| => if ps[i].text.Some? then ps[i].text.value else "")
  }

  /** The reply buttons of one group: its items with a non-empty content, titled by
    * `getUniqueButtonTitles` over their contents. */
  function ChoiceButtons(group: seq<ChoiceItem>): (r: seq<ReplyButton>)
    ensures var items := NonEmptyChoices(group);
            && |r| == |items|
            && (forall i :: 0 <= i < |r| ==> r[i].id == items[i].id)
            && Distinct(TitlesOf(r))
  {
    var items := NonEmptyChoices(group);
    var titles := UniqueButtonTitles(seq(|items|, i requires 0 <= i < |items| => items[i].content.value));
    var r := seq(|items|, i requires 0 <= i < |items| => ReplyButton(items[i].id, titles[i]));
    assert TitlesOf(r) == titles;
    r
  }

  /** A single choice: the items with a defined content, in groups of the configured size,
    * one button message per group; the first body is the last message text (or "―") and
    * the others "―". */
  function ChoiceButtonMessages(items: seq<ChoiceItem>, groupSize: int, lastMessageText: Option<string>): (r: seq<Message>)
    ensures var groups := GroupBySize(DefinedChoices(items), groupSize);
            && |r| == |groups|
            && forall idx :: 0 <= idx < |r| ==>
                 r[idx] == Buttons(None, Some(if idx == 0 then OrElse(lastMessageText, "―") else "―"),
                                   ChoiceButtons(groups[idx]))
  {
    var groups := GroupBySize(DefinedChoices(items), groupSize);
    seq(|groups|, idx requires 0 <= idx < |groups| =>
      Buttons(None, Some(if idx == 0 then OrElse(lastMessageText, "―") else "―"), ChoiceButtons(groups[idx])))
  }

  lemma ChoiceButtonsAtMost(group: seq<ChoiceItem>)
    ensures |ChoiceButtons(group)| <= |group|
  {
    assert |ChoiceButtons(group)| == |NonEmptyChoices(group)|;
  }

  /** With a non-zero group size no message carries more buttons than the group size. */
  lemma ChoiceMessagesRespectGroupSize(items: seq<ChoiceItem>, groupSize: int, lastMessageText: Option<string>)
    requires groupSize != 0
    ensures var r := ChoiceButtonMessages(items, groupSize, lastMessageText);
            forall idx :: 0 <= idx < |r| ==> |r[idx].buttons| <= Abs(groupSize)
  {
    var groups := GroupBySize(DefinedChoices(items), groupSize);
    GroupsAreAtMost(DefinedChoices(items), groupSize);
    var r := ChoiceButtonMessages(items, groupSize, lastMessageText);
    forall idx | 0 <= idx < |r|
      ensures |r[idx].buttons| <= Abs(groupSize)
    {
      assert r[idx].buttons == ChoiceButtons(groups[idx]);
      ChoiceButtonsAtMost(groups[idx]);
    }
  }

  /** An item whose content is the empty string still takes a place in its group but gets
    * no button: a single choice whose only item is empty sends a button message without
    * buttons. */
  lemma EmptyContentGivesButtonlessMessage(groupSize: int)
    ensures var r := ChoiceButtonMessages([ChoiceItem("a", Some(""))], groupSize, None);
            |r| == 1 && r[0].Buttons? && r[0].buttons == []
  {
    var items := [ChoiceItem("a", Some(""))];
    assert items[..0] == [];
    assert DefinedChoices(items) == items;
    assert GroupBySize(items, groupSize) == [items];
    assert NonEmptyChoices(items) == [];
  }

  // ----- cards -----

  /** The reply buttons of a card: its first three paths, titled by `getUniqueButtonTitles`
    * over their texts (an absent text counts as empty). */
  function CardButtons(paths: Option<seq<CardPath>>): (r: seq<ReplyButton>)
    ensures var ps := FirstN(if paths.Some? then paths.value else [], 3);
            && |r| == |ps| <= 3
            && (forall i :: 0 <= i < |r| ==> r[i].id == ps[i].id && |r[i].title| <= 20)
            && Distinct(TitlesOf(r))
  {
    var ps := FirstN(if paths.Some? then paths.value else [], 3);
    var texts := PathTexts(ps);
    var titles := UniqueButtonTitles(texts);
    UniqueButtonTitlesFit(texts);
    var r := seq(|ps|, i requires 0 <= i < |ps| => ReplyButton(ps[i].id, titles[i]));
    assert TitlesOf(r) == titles;
    r
  }

  function CardMessage(item: CardItem, upload: Uploader): (r: Message)
    ensures r.Buttons? && r.buttons == CardButtons(item.paths)
    ensures r.header.Some? <==> Truthy(item.imageUrl)
    ensures r.body.None? <==> !Truthy(item.title) && !Truthy(item.description)
  {
    var bodyText := ItemBody(item.title, item.description);
    Buttons(
      header := if Truthy(item.imageUrl) then Some(ImageHeader(MediaFor(item.imageUrl.value, upload))) else None,
      body := if bodyText == "" then None else Some(bodyText),
      buttons := CardButtons(item.paths))
  }

  /** The buttons of one card as the source builds them. */
  method CardButtonsOf(paths: Option<seq<CardPath>>) returns (buttons: seq<ReplyButton>)
    ensures buttons == CardButtons(paths)
  {
    var ps := FirstN(if paths.Some? then paths.value else [], 3);
    var texts := PathTexts(ps);
    var titles := GetUniqueButtonTitles(texts);
    buttons := seq(|ps|, i requires 0 <= i < |ps| => ReplyButton(ps[i].id, titles[i]));
  }

  /** The loop of the cards input: one button message per card, in order. */
  method CardsLoop(items: seq<CardItem>, upload: Uploader) returns (messages: seq<Message>)
    ensures |messages| == |items|
    ensures forall i :: 0 <= i < |items| ==> messages[i] == CardMessage(items[i], upload)
  {
    messages := [];
    for idx := 0 to |items|
      invariant |messages| == idx
      invariant forall i :: 0 <= i < idx ==> messages[i] == CardMessage(items[i], upload)
    {
      var message := CardPass(items[idx], upload);
      messages := messages + [message];
    }
  }

  /** One pass of the cards loop: the card's image header, if any, its body and its
    * buttons. */
  method CardPass(item: CardItem, upload: Uploader) returns (message: Message)
    ensures message == CardMessage(item, upload)
  {
    var bodyText := BuildBodyText(item.title, item.description);
    var header: Option<Header> := None;
    if Truthy(item.imageUrl) {
      header := Some(ImageHeader(MediaFor(item.imageUrl.value, upload)));
    }
    var buttons := CardButtonsOf(item.paths);
    message := Buttons(header, if bodyText == "" then None else Some(bodyText), buttons);
  }

  // ----- CTA URL -----

  function CtaHeader(o: CtaOptions, upload: Uploader): (r: Option<Header>)
    ensures r.Some? && r.value.TextHeader? ==> |r.value.text| <= 60
  {
    if o.headerType == Some("text") && Truthy(o.headerText) then Some(TextHeader(Take(o.headerText.value, 60)))
    else if o.headerType == Some("image") && Truthy(o.headerImageUrl) then
      Some(ImageHeader(MediaFor(o.headerImageUrl.value, upload)))
    else None
  }

  /** The CTA-URL case: nothing when the flag is off or the url or body is missing;
    * otherwise one message with the body cut to 1024, the footer to 60 and the button text
    * (default "Click here") to 20, and the url as given. */
  function CtaMessages(enabled: bool, options: Option<CtaOptions>, upload: Uploader): (r: seq<Message>)
    ensures r == [] <==> !enabled || options.None? || !Truthy(options.value.url) || !Truthy(options.value.bodyText)
    ensures r != [] ==>
              var o := options.value;
              && |r| == 1 && r[0].CtaUrl?
              && r[0].url == o.url.value
              && |r[0].ctaBody| <= 1024 && r[0].ctaBody == Take(o.bodyText.value, 1024)
              && r[0].footer == TakeIfTruthy(o.footerText, 60)
              && r[0].displayText == Take(OrElse(o.displayText, "Click here"), 20)
              && r[0].ctaHeader == CtaHeader(o, upload)
  {
    if !enabled then []
    else if options.None? || !Truthy(options.value.url) || !Truthy(options.value.bodyText) then []
    else
      var o := options.value;
      [CtaUrl(CtaHeader(o, upload), Take(o.bodyText.value, 1024), TakeIfTruthy(o.footerText, 60),
              Take(OrElse(o.displayText, "Click here"), 20), o.url.value)]
  }

  // ----- WhatsApp list -----

  /** The contents of the items whose content is defined (possibly empty). */
  function DefinedContents(items: seq<ListItem>): (r: seq<string>)
    ensures |r| <= |items|
    decreases |items|
  {
    if items == [] then []
    else
      var rest := DefinedContents(items[..|items| - 1]);
      if items[|items| - 1].content.Some? then rest + [items[|items| - 1].content.value] else rest
  }

  /** The items with a non-empty content: the ones that become rows. */
  function RowItems(items: seq<ListItem>): (r: seq<ListItem>)
    ensures |r| <= |DefinedContents(items)|
    ensures forall i :: 0 <= i < |r| ==> Truthy(r[i].content)
    decreases |items|
  {
    if items == [] then []
    else
      var rest := RowItems(items[..|items| - 1]);
      if Truthy(items[|items| - 1].content) then rest + [items[|items| - 1]] else rest
  }

  /** The state of the list loop: the sections built so far (the current section is the
    * last one), the number of rows, and whether the loop broke off. */
  datatype ListState = ListState(sections: seq<Schemas.ListSection>, totalRows: nat, stopped: bool)

  function RowOf(item: ListItem, title: string): Schemas.ListRow
  {
    Schemas.ListRow(item.id, title, TakeOpt(item.description, 72))
  }

  /** Appends a row to the last section. */
  function AddRow(sections: seq<Schemas.ListSection>, row: Schemas.ListRow): (r: seq<Schemas.ListSection>)
    requires |sections| > 0
    ensures |r| == |sections| && r[..|r| - 1] == sections[..|sections| - 1]
    ensures r[|r| - 1] == sections[|sections| - 1].(rows := sections[|sections| - 1].rows + [row])
  {
    var last := sections[|sections| - 1];
    sections[..|sections| - 1] + [last.(rows := last.rows + [row])]
  }

  /** One pass of the list loop. */
  function ListStep(s: ListState, item: ListItem, titles: seq<string>): ListState
    requires Truthy(item.content) ==> s.totalRows < |titles|
  {
    if s.stopped || !Truthy(item.content) || s.totalRows >= 10 then s
    else if Truthy(item.sectionTitle) || |s.sections| == 0 then
      if |s.sections| >= 10 then s.(stopped := true)
      else
        var withSection := s.sections + [Schemas.ListSection(TakeOpt(item.sectionTitle, 24), [])];
        ListState(AddRow(withSection, RowOf(item, titles[s.totalRows])), s.totalRows + 1, false)
    else ListState(AddRow(s.sections, RowOf(item, titles[s.totalRows])), s.totalRows + 1, false)
  }

  /** The list loop over all items; row `k` is titled `titles[k]`. */
  function ListFold(items: seq<ListItem>, titles: seq<string>): (s: ListState)
    requires |RowItems(items)| <= |titles|
    ensures s.totalRows <= |RowItems(items)|
    decreases |items|
  {
    if items == [] then ListState([], 0, false)
    else ListStep(ListFold(items[..|items| - 1], titles), items[|items| - 1], titles)
  }

  function RowsOf(sections: seq<Schemas.ListSection>): seq<Schemas.ListRow>
    decreases |sections|
  {
    if sections == [] then [] else RowsOf(sections[..|sections| - 1]) + sections[|sections| - 1].rows
  }

  /** Every section has a row and a title of at most 24 characters. */
  predicate SectionsShaped(sections: seq<Schemas.ListSection>)
  {
    forall j :: 0 <= j < |sections| ==> 1 <= |sections[j].rows| && Schemas.OptionalAtMost(sections[j].title, 24)
  }

  /** A pass over an item with a content, below ten rows, adds exactly that item's row and
    * keeps every section non-empty; it cannot reach the break, because there are never more
    * sections than rows. */
  lemma StepAddsRow(p: ListState, item: ListItem, titles: seq<string>)
    requires !p.stopped && |p.sections| <= p.totalRows < 10 && p.totalRows < |titles|
    requires Truthy(item.content) && SectionsShaped(p.sections)
    ensures var s := ListStep(p, item, titles);
            && !s.stopped && s.totalRows == p.totalRows + 1 && |s.sections| <= s.totalRows
            && RowsOf(s.sections) == RowsOf(p.sections) + [RowOf(item, titles[p.totalRows])]
            && SectionsShaped(s.sections)
  {
    var row := RowOf(item, titles[p.totalRows]);
    var base := if Truthy(item.sectionTitle) || |p.sections| == 0
                then p.sections + [Schemas.ListSection(TakeOpt(item.sectionTitle, 24), [])]
                else p.sections;
    if Truthy(item.sectionTitle) || |p.sections| == 0 {
      RowsOfAppendEmpty(p.sections, TakeOpt(item.sectionTitle, 24));
    }
    assert ListStep(p, item, titles).sections == AddRow(base, row);
    RowsOfAddRow(base, row);
    var r := AddRow(base, row);
    forall j | 0 <= j < |r|
      ensures 1 <= |r[j].rows| && Schemas.OptionalAtMost(r[j].title, 24)
    {
      if j < |r| - 1 {
        assert r[j] == r[..|r| - 1][j] == base[j];
      }
    }
  }

  /** What the list loop builds: the rows are the first ten items with a content, in order,
    * the `k`-th titled `titles[k]`; there are no more sections than rows, every section has
    * a row and a title of at most 24 characters, and the loop never reaches its
    * ten-section break. */
  lemma {:induction false} ListFoldBuildsFirstTenRows(items: seq<ListItem>, titles: seq<string>)
    requires |RowItems(items)| <= |titles|
    ensures FirstTenRows(ListFold(items, titles), RowItems(items), titles)
    decreases |items|
  {
    if items != [] {
      var init, item := items[..|items| - 1], items[|items| - 1];
      ListFoldBuildsFirstTenRows(init, titles);
      StepKeepsFirstTenRows(ListFold(init, titles), item, RowItems(init), titles);
    }
  }

  /** The state `s` holds the first ten of the row items `ri` as rows, the `k`-th titled
    * `titles[k]`, in sections that each have a row and a title of at most 24 characters,
    * no more sections than rows, and the loop has not broken off. */
  ghost predicate FirstTenRows(s: ListState, ri: seq<ListItem>, titles: seq<string>)
  {
    && !s.stopped
    && s.totalRows == Min(10, |ri|) <= |titles|
    && |s.sections| <= s.totalRows
    && |RowsOf(s.sections)| == s.totalRows
    && (forall k :: 0 <= k < s.totalRows ==> RowsOf(s.sections)[k] == RowOf(ri[k], titles[k]))
    && SectionsShaped(s.sections)
  }

  /** One pass keeps `FirstTenRows`, with the item counted when it has a content. */
  lemma StepKeepsFirstTenRows(p: ListState, item: ListItem, ri0: seq<ListItem>, titles: seq<string>)
    requires FirstTenRows(p, ri0, titles)
    requires |ri0| + (if Truthy(item.content) then 1 else 0) <= |titles|
    ensures FirstTenRows(ListStep(p, item, titles), ri0 + (if Truthy(item.content) then [item] else []), titles)
  {
    if Truthy(item.content) {
      var ri := ri0 + [item];
      if p.totalRows < 10 {
        StepAddsRow(p, item, titles);
        var s := ListStep(p, item, titles);
        forall k | 0 <= k < s.totalRows
          ensures RowsOf(s.sections)[k] == RowOf(ri[k], titles[k])
        {
          if k < p.totalRows {
            assert RowsOf(s.sections)[k] == RowsOf(p.sections)[k];
            assert ri[k] == ri0[k];
          }
        }
      } else {
        forall k | 0 <= k < p.totalRows
          ensures ri[k] == ri0[k]
        {
        }
      }
    } else {
      assert ri0 + [] == ri0;
    }
  }

  lemma RowsOfAddRow(sections: seq<Schemas.ListSection>, row: Schemas.ListRow)
    requires |sections| > 0
    ensures RowsOf(AddRow(sections, row)) == RowsOf(sections) + [row]
  {
    var r := AddRow(sections, row);
    assert r[..|r| - 1] == sections[..|sections| - 1];
  }

  lemma RowsOfAppendEmpty(sections: seq<Schemas.ListSection>, title: Option<string>)
    ensures RowsOf(sections + [Schemas.ListSection(title, [])]) == RowsOf(sections)
  {
    assert (sections + [Schemas.ListSection(title, [])])[..|sections|] == sections;
  }

  /** The titles the list rows draw from: `getUniqueButtonTitles` over every defined content. */
  function ListTitles(items: seq<ListItem>): (r: seq<string>)
    ensures |r| == |DefinedContents(items)| >= |RowItems(items)|
  {
    UniqueButtonTitles(DefinedContents(items))
  }

  /** The list case: nothing when the flag is off or no section was built; otherwise one list
    * with header and footer cut to 60, the last message text (or "Please select an option")
    * as body, the button label (default "Options") cut to 20 and the built sections. */
  function ListMessages(enabled: bool, options: Option<ListOptions>, items: seq<ListItem>,
                        lastMessageText: Option<string>): (r: seq<Message>)
    ensures |r| <= 1
    ensures r != [] ==> r[0].List? && r[0].list.sections == ListFold(items, ListTitles(items)).sections
    ensures r == [] <==> !enabled || ListFold(items, ListTitles(items)).sections == []
  {
    if !enabled then []
    else
      var s := ListFold(items, ListTitles(items));
      if |s.sections| == 0 then []
      else
        [List(Schemas.ListMessage(
          header := if options.Some? then TakeIfTruthy(options.value.listHeader, 60) else None,
          body := OrElse(lastMessageText, "Please select an option"),
          footer := if options.Some? then TakeIfTruthy(options.value.listFooter, 60) else None,
          button := Take(OrElse(if options.Some? then options.value.buttonLabel else None, "Options"), 20),
          sections := s.sections))]
  }

  /** A list is sent exactly when the flag is on and some item has a non-empty content. */
  lemma ListSentIffSomeRow(enabled: bool, options: Option<ListOptions>, items: seq<ListItem>,
                           lastMessageText: Option<string>)
    ensures ListMessages(enabled, options, items, lastMessageText) != [] <==> enabled && |RowItems(items)| > 0
  {
    ListFoldBuildsFirstTenRows(items, ListTitles(items));
    var s := ListFold(items, ListTitles(items));
    if |RowItems(items)| > 0 && s.sections == [] {
      assert false;
    }
  }

  /** The list the converter sends passes the interactive-list schema as long as the item
    * ids fit in 200 characters and the body in 1024: rows and sections stay within 1..10,
    * titles within 24 (they are button titles of at most 20), section titles within 24 and
    * descriptions within 72. */
  lemma {:induction false} ConvertedListIsValid(enabled: bool, options: Option<ListOptions>, items: seq<ListItem>,
                                                lastMessageText: Option<string>)
    requires ListMessages(enabled, options, items, lastMessageText) != []
    requires |items| < Pow10(15)
    requires forall i :: 0 <= i < |items| ==> |items[i].id| <= 200
    requires |OrElse(lastMessageText, "Please select an option")| <= 1024
    ensures Schemas.ValidListMessage(ListMessages(enabled, options, items, lastMessageText)[0].list)
  {
    var titles := ListTitles(items);
    var ri := RowItems(items);
    var m := ListMessages(enabled, options, items, lastMessageText)[0].list;
    ListFoldBuildsFirstTenRows(items, titles);
    UniqueButtonTitlesFit(DefinedContents(items));
    RowItemsAreItems(items);
    var s := ListFold(items, titles);
    var rows := RowsOf(s.sections);
    assert forall k :: 0 <= k < |rows| ==> Schemas.ValidListRow(rows[k]) by {
      forall k | 0 <= k < |rows| ensures Schemas.ValidListRow(rows[k]) {
        assert rows[k] == RowOf(ri[k], titles[k]);
      }
    }
    forall j | 0 <= j < |s.sections|
      ensures Schemas.ValidListSection(s.sections[j])
    {
      RowsOfBound(s.sections, j);
      RowsOfContains(s.sections, j);
      var sec := s.sections[j];
      forall k | 0 <= k < |sec.rows|
        ensures Schemas.ValidListRow(sec.rows[k])
      {
        assert sec.rows[k] in rows;
      }
    }
  }

  lemma {:induction false} RowItemsAreItems(items: seq<ListItem>)
    ensures forall i :: 0 <= i < |RowItems(items)| ==> RowItems(items)[i] in items
    decreases |items|
  {
    if items != [] {
      RowItemsAreItems(items[..|items| - 1]);
    }
  }

  /** A section holds no more rows than all sections together. */
  lemma {:induction false} RowsOfBound(sections: seq<Schemas.ListSection>, j: nat)
    requires j < |sections|
    ensures |sections[j].rows| <= |RowsOf(sections)|
    decreases |sections|
  {
    if j < |sections| - 1 {
      RowsOfBound(sections[..|sections| - 1], j);
    }
  }

  /** Every row of a section is one of the rows of all sections. */
  lemma {:induction false} RowsOfContains(sections: seq<Schemas.ListSection>, j: nat)
    requires j < |sections|
    ensures forall k :: 0 <= k < |sections[j].rows| ==> sections[j].rows[k] in RowsOf(sections)
    decreases |sections|
  {
    if j < |sections| - 1 {
      RowsOfContains(sections[..|sections| - 1], j);
    }
  }

  /** The titles of the contents "" and "Banana" are the contents themselves. */
  lemma EmptyThenBananaTitles()
    ensures UniqueButtonTitles(["", "Banana"]) == ["", "Banana"]
  {
    assert ["", "Banana"][..1] == [""];
    assert [""][..0] == [];
    assert UniqueButtonTitles([""]) == [""];
    assert BaseTitle("Banana") == "Banana";
  }

  /** The fold over an item with an empty content and one with "Banana" opens one section,
    * untitled, with the one row of the second item. */
  lemma EmptyThenBananaFold(items: seq<ListItem>, titles: seq<string>)
    requires items == [ListItem("a", Some(""), None, None), ListItem("b", Some("Banana"), None, None)]
    requires titles == ["", "Banana"]
    ensures ListFold(items, titles).sections == [Schemas.ListSection(None, [Schemas.ListRow("b", "", None)])]
  {
    assert items[..1] == [items[0]];
    assert [items[0]][..0] == [];
    assert RowItems([items[0]]) == [];
    var p := ListFold([items[0]], titles);
    assert p == ListStep(ListFold([], titles), items[0], titles);
    assert p == ListState([], 0, false);
    var row := Schemas.ListRow("b", "", None);
    assert RowOf(items[1], titles[0]) == row;
    var r := AddRow([Schemas.ListSection(None, [])], row);
    assert |r| == 1 && r[0].title == None && r[0].rows == [] + [row];
    assert [] + [row] == [row];
    assert r[0] == Schemas.ListSection(None, [row]);
    assert r == [Schemas.ListSection(None, [row])];
  }

  /** The titles are counted over the defined contents, empty ones included, while rows
    * skip the empty ones: after an item whose content is empty, a row takes the title meant
    * for the item before it. Here the "Banana" row is titled with the empty item's title. */
  lemma EmptyContentShiftsRowTitles(items: seq<ListItem>)
    requires items == [ListItem("a", Some(""), None, None), ListItem("b", Some("Banana"), None, None)]
    ensures var m := ListMessages(true, None, items, None);
            && |m| == 1
            && m[0].list.sections == [Schemas.ListSection(None, [Schemas.ListRow("b", "", None)])]
  {
    EmptyThenBananaListTitles(items);
    EmptyThenBananaFold(items, ListTitles(items));
  }

  lemma EmptyThenBananaListTitles(items: seq<ListItem>)
    requires items == [ListItem("a", Some(""), None, None), ListItem("b", Some("Banana"), None, None)]
    ensures ListTitles(items) == ["", "Banana"]
  {
    assert items[..1] == [items[0]];
    assert [items[0]][..0] == [];
    assert DefinedContents(items) == ["", "Banana"];
    EmptyThenBananaTitles();
  }

  /** The contents of the items that become rows. */
  function RowContents(items: seq<ListItem>): (r: seq<string>)
    ensures |r| == |RowItems(items)|
    ensures forall k :: 0 <= k < |r| ==> r[k] == RowItems(items)[k].content.value
  {
    var ri := RowItems(items);
    seq(|ri|, k requires 0 <= k < |ri| => ri[k].content.value)
  }

  /** The titles counted over the rows' own contents, so that row `k` is titled from the
    * content of the item it shows. */
  function RowTitles(items: seq<ListItem>): (r: seq<string>)
    ensures |r| == |RowItems(items)|
  {
    UniqueButtonTitles(RowContents(items))
  }

  /** With titles counted over the rows' own contents, every row carries its own item's id and
    * the title of that item's content (cut to 20, or numbered when an earlier row took it). */
  lemma {:induction false} RowTitlesFollowTheirRows(items: seq<ListItem>)
    ensures var ri, titles := RowItems(items), RowTitles(items);
            var s := ListFold(items, titles);
            && s.totalRows == Min(10, |ri|)
            && |RowsOf(s.sections)| == s.totalRows
            && forall k :: 0 <= k < s.totalRows ==>
                 && RowsOf(s.sections)[k].id == ri[k].id
                 && RowsOf(s.sections)[k].title == TrimTitle(ri[k].content.value, titles[..k])
  {
    var ri, titles := RowItems(items), RowTitles(items);
    var s := ListFold(items, titles);
    ListFoldBuildsFirstTenRows(items, titles);
    var rows := RowsOf(s.sections);
    forall k | 0 <= k < s.totalRows
      ensures rows[k].id == ri[k].id && rows[k].title == TrimTitle(ri[k].content.value, titles[..k])
    {
      assert rows[k] == RowOf(ri[k], titles[k]);
      UniqueButtonTitlesAt(RowContents(items), k);
    }
  }

  /** When the rows' contents are distinct and fit in 20 characters, each row is titled with
    * its own item's content. With the items of `EmptyContentShiftsRowTitles`, the "Banana" row
    * is titled "Banana". */
  lemma {:induction false} ShortDistinctContentsTitleTheirRows(items: seq<ListItem>)
    requires Distinct(RowContents(items))
    requires forall k :: 0 <= k < |RowItems(items)| ==> |RowItems(items)[k].content.value| <= 20
    ensures var ri, s := RowItems(items), ListFold(items, RowTitles(items));
            && s.totalRows <= |ri| && |RowsOf(s.sections)| == s.totalRows
            && forall k :: 0 <= k < s.totalRows ==> RowsOf(s.sections)[k].title == ri[k].content.value
  {
    var ri, titles := RowItems(items), RowTitles(items);
    var s := ListFold(items, titles);
    ListFoldBuildsFirstTenRows(items, titles);
    DistinctShortTextsAreKept(RowContents(items));
    forall k | 0 <= k < s.totalRows ensures RowsOf(s.sections)[k].title == ri[k].content.value {
      assert RowsOf(s.sections)[k] == RowOf(ri[k], titles[k]);
    }
  }

  /** The list loop as the source writes it, with the current section being the last one
    * pushed. */
  method ListLoop(items: seq<ListItem>, titles: seq<string>) returns (sections: seq<Schemas.ListSection>)
    requires |RowItems(items)| <= |titles|
    ensures sections == ListFold(items, titles).sections
  {
    sections := [];
    var totalRows := 0;
    var i := 0;
    while i < |items|
      invariant 0 <= i <= |items|
      invariant |RowItems(items[..i])| <= |titles|
      invariant ListFold(items[..i], titles) == ListState(sections, totalRows, false)
    {
      var stopped;
      sections, totalRows, stopped := ListLoopPass(items, titles, i, sections, totalRows);
      if stopped {
        StoppedStaysStopped(items, titles, i + 1);
        return;
      }
      i := i + 1;
    }
    assert items[..i] == items;
  }

  /** Pass `i` of the list loop, continuing the fold over the items before it. */
  method ListLoopPass(items: seq<ListItem>, titles: seq<string>, i: nat, sections: seq<Schemas.ListSection>, totalRows: nat)
    returns (sections': seq<Schemas.ListSection>, totalRows': nat, stopped: bool)
    requires i < |items| && |RowItems(items)| <= |titles| && |RowItems(items[..i])| <= |titles|
    requires ListFold(items[..i], titles) == ListState(sections, totalRows, false)
    ensures |RowItems(items[..i + 1])| <= |titles|
    ensures ListFold(items[..i + 1], titles) == ListState(sections', totalRows', stopped)
  {
    FoldPrefixStep(items, titles, i);
    sections', totalRows', stopped := ListPass(sections, totalRows, items[i], titles);
  }

  /** One pass of the list loop over `item`: skip it, break off at ten sections, or add its
    * row, in a new section when it has a section title or none is open yet. */
  method ListPass(sections: seq<Schemas.ListSection>, totalRows: nat, item: ListItem, titles: seq<string>)
    returns (sections': seq<Schemas.ListSection>, totalRows': nat, stopped: bool)
    requires Truthy(item.content) ==> totalRows < |titles|
    ensures ListState(sections', totalRows', stopped) == ListStep(ListState(sections, totalRows, false), item, titles)
  {
    sections', totalRows', stopped := sections, totalRows, false;
    if !Truthy(item.content) || totalRows >= 10 {
      return;
    }
    if Truthy(item.sectionTitle) || |sections| == 0 {
      if |sections| >= 10 {
        stopped := true;
        return;
      }
      sections' := sections + [Schemas.ListSection(TakeOpt(item.sectionTitle, 24), [])];
    }
    sections' := AddRow(sections', RowOf(item, titles[totalRows]));
    totalRows' := totalRows + 1;
  }

  /** One more item of the prefix is one more pass of the loop. */
  lemma FoldPrefixStep(items: seq<ListItem>, titles: seq<string>, i: nat)
    requires i < |items| && |RowItems(items)| <= |titles|
    ensures |RowItems(items[..i])| <= |RowItems(items[..i + 1])| <= |titles|
    ensures Truthy(items[i].content) ==> ListFold(items[..i], titles).totalRows < |titles|
    ensures ListFold(items[..i + 1], titles) == ListStep(ListFold(items[..i], titles), items[i], titles)
  {
    assert items[..i + 1][..i] == items[..i];
    RowItemsPrefix(items, i + 1);
  }

  lemma {:induction false} RowItemsPrefix(items: seq<ListItem>, n: nat)
    requires n <= |items|
    ensures |RowItems(items[..n])| <= |RowItems(items)|
    decreases |items|
  {
    if n < |items| {
      assert items[..|items| - 1][..n] == items[..n];
      RowItemsPrefix(items[..|items| - 1], n);
    } else {
      assert items[..n] == items;
    }
  }

  /** Once the loop breaks off, the remaining items change nothing. */
  lemma {:induction false} StoppedStaysStopped(items: seq<ListItem>, titles: seq<string>, n: nat)
    requires n <= |items| && |RowItems(items)| <= |titles|
    requires |RowItems(items[..n])| <= |titles| && ListFold(items[..n], titles).stopped
    ensures ListFold(items, titles) == ListFold(items[..n], titles)
    decreases |items| - n
  {
    if n == |items| {
      assert items[..n] == items;
    } else {
      RowItemsPrefix(items, n + 1);
      assert items[..n + 1][..n] == items[..n];
      StoppedStaysStopped(items, titles, n + 1);
    }
  }

  /** The list case as the source writes it. */
  method ListCase(enabled: bool, options: Option<ListOptions>, items: seq<ListItem>, lastMessageText: Option<string>)
    returns (messages: seq<Message>)
    ensures messages == ListMessages(enabled, options, items, lastMessageText)
  {
    if !enabled {
      return [];
    }
    var titles := GetUniqueButtonTitles(DefinedContents(items));
    var sections := ListLoop(items, titles);
    if |sections| == 0 {
      return [];
    }
    messages := [List(Schemas.ListMessage(
      header := if options.Some? then TakeIfTruthy(options.value.listHeader, 60) else None,
      body := OrElse(lastMessageText, "Please select an option"),
      footer := if options.Some? then TakeIfTruthy(options.value.listFooter, 60) else None,
      button := Take(OrElse(if options.Some? then options.value.buttonLabel else None, "Options"), 20),
      sections := sections))];
  }

  // ----- carousel -----

  /** The card built from item `index`: its type from the button type, a header when both
    * header type and url are given, the body cut to 160, and a URL button (text cut to 20,
    * default "Visit") or at most two quick replies with titles cut to 20. */
  function CardOf(item: CarouselItem, index: nat): (c: CarouselCard)
    ensures c.cardIndex == index
    ensures c.header.Some? <==> Truthy(item.headerType) && Truthy(item.headerUrl)
    ensures c.body.Some? ==> |c.body.value| <= 160
    ensures c.action.Some? && c.action.value.CarouselCta? ==> |c.action.value.displayText| <= 20
    ensures c.action.Some? && c.action.value.CarouselQuickReplies? ==>
              var bs := c.action.value.buttons;
              |bs| <= 2 && forall k :: 0 <= k < |bs| ==> |bs[k].title| <= 20
  {
    CarouselCard(
      cardIndex := index,
      cardType := if item.buttonType == Some("cta_url") then Some("cta_url")
                  else if item.buttonType == Some("quick_reply") then Some("quick_reply")
                  else None,
      header := if Truthy(item.headerType) && Truthy(item.headerUrl)
                then Some(CarouselHeader(item.headerType.value, item.headerUrl.value)) else None,
      body := TakeIfTruthy(item.bodyText, 160),
      action := if item.buttonType == Some("cta_url") && item.ctaUrlButton.Some? then
                  Some(CarouselCta(OrElse(TakeOpt(item.ctaUrlButton.value.displayText, 20), "Visit"),
                                   item.ctaUrlButton.value.url))
                else if item.buttonType == Some("quick_reply") && item.quickReplyButtons.Some? then
                  var bs := FirstN(item.quickReplyButtons.value, 2);
                  Some(CarouselQuickReplies(seq(|bs|, k requires 0 <= k < |bs| => ReplyButton(bs[k].id, Take(bs[k].title, 20)))))
                else None)
  }

  /** The cards that have a header, in order. */
  function WithHeader(cards: seq<CarouselCard>): (r: seq<CarouselCard>)
    ensures |r| <= |cards|
    ensures forall i :: 0 <= i < |r| ==> r[i].header.Some? && r[i] in cards
    decreases |cards|
  {
    if cards == [] then []
    else
      var rest := WithHeader(cards[..|cards| - 1]);
      if cards[|cards| - 1].header.Some? then rest + [cards[|cards| - 1]] else rest
  }

  function CarouselCards(items: seq<CarouselItem>): seq<CarouselCard>
  {
    seq(|items|, i requires 0 <= i < |items| => CardOf(items[i], i))
  }

  /** The carousel case: nothing for fewer than two items or fewer than two cards with a
    * header; otherwise one carousel of the cards with a header, with the body text (default
    * "Choose an option below:") cut to 1024. */
  function CarouselMessages(bodyText: Option<string>, items: seq<CarouselItem>): (r: seq<Message>)
    ensures |r| <= 1
    ensures r == [] <==> |items| < 2 || |WithHeader(CarouselCards(items))| < 2
    ensures r != [] ==>
              && r[0].Carousel?
              && r[0].carouselBody == Take(OrElse(bodyText, "Choose an option below:"), 1024)
              && r[0].cards == WithHeader(CarouselCards(items))
  {
    var body := OrElse(bodyText, "Choose an option below:");
    if |items| < 2 then []
    else
      var valid := WithHeader(CarouselCards(items));
      if |valid| < 2 then [] else [Carousel(Take(body, 1024), valid)]
  }

  /** The card indices increase along `cards`. */
  predicate IndicesIncrease(cards: seq<CarouselCard>)
  {
    forall k, l :: 0 <= k < l < |cards| ==> cards[k].cardIndex < cards[l].cardIndex
  }

  /** Filtering cards that are numbered by position keeps each card's number: every kept card
    * is the card at its number, and the kept numbers increase. */
  lemma {:induction false} WithHeaderKeepsPositions(cards: seq<CarouselCard>)
    requires forall i :: 0 <= i < |cards| ==> cards[i].cardIndex == i
    ensures var kept := WithHeader(cards);
            && (forall k :: 0 <= k < |kept| ==>
                  kept[k].cardIndex < |cards| && kept[k] == cards[kept[k].cardIndex])
            && IndicesIncrease(kept)
    decreases |cards|
  {
    if cards != [] {
      var n := |cards| - 1;
      var earlier := cards[..n];
      WithHeaderKeepsPositions(earlier);
      var rest := WithHeader(earlier);
      assert forall k :: 0 <= k < |rest| ==> rest[k].cardIndex < n && rest[k] == cards[rest[k].cardIndex];
      if cards[n].header.Some? {
        var kept := rest + [cards[n]];
        assert WithHeader(cards) == kept;
        assert IndicesIncrease(rest);
        forall k, l | 0 <= k < l < |kept| ensures kept[k].cardIndex < kept[l].cardIndex {
          assert kept[k] == rest[k];
          if l < |rest| {
            assert kept[l] == rest[l];
          }
        }
      }
    }
  }

  /** Kept cards keep their original position as card index: they are, in increasing index
    * order, exactly the cards built from the items with a header type and url. */
  lemma KeptCardsKeepTheirIndex(items: seq<CarouselItem>)
    ensures var kept := WithHeader(CarouselCards(items));
            && (forall k :: 0 <= k < |kept| ==>
                  kept[k].cardIndex < |items| && kept[k] == CardOf(items[kept[k].cardIndex], kept[k].cardIndex))
            && (forall k, l :: 0 <= k < l < |kept| ==> kept[k].cardIndex < kept[l].cardIndex)
  {
    WithHeaderKeepsPositions(CarouselCards(items));
  }

  // ----- the conversion -----

  /** One button message per picture item. */
  function PictureButtonMessages(items: seq<PictureItem>, upload: Uploader, selectText: string): (r: seq<Message>)
    ensures |r| == |items|
    ensures forall i :: 0 <= i < |items| ==> r[i] == PictureButtonMessage(items[i], upload, selectText)
  {
    seq(|items|, i requires 0 <= i < |items| => PictureButtonMessage(items[i], upload, selectText))
  }

  /** One message per card item. */
  function CardMessages(items: seq<CardItem>, upload: Uploader): (r: seq<Message>)
    ensures |r| == |items|
    ensures forall i :: 0 <= i < |items| ==> r[i] == CardMessage(items[i], upload)
  {
    seq(|items|, i requires 0 <= i < |items| => CardMessage(items[i], upload))
  }

  /** `convertInputToWhatsAppMessages`; no value (`undefined`) for block types it has no
    * case for. */
  function ConvertInput(input: Input, env: Env, lastMessageText: Option<string>, selectLabel: Option<string>,
                        upload: Uploader): (r: Option<seq<Message>>)
    ensures r.None? <==> input.OtherInput?
    ensures input.NoReplyInput? ==> r == Some([])
  {
    match input
    case NoReplyInput(_) => Some([])
    case PictureChoice(multiple, items) =>
      if (if multiple.Some? then multiple.value else env.pictureMultipleDefault) then Some(PictureListMessages(items, upload))
      else
        var selectText := if selectLabel.Some? then selectLabel.value else env.defaultSelectLabel;
        Some(PictureButtonMessages(items, upload, selectText))
    case Choice(multiple, items) =>
      if (if multiple.Some? then multiple.value else env.choiceMultipleDefault) then Some([ChoiceListText(items, lastMessageText)])
      else Some(ChoiceButtonMessages(items, env.groupSize, lastMessageText))
    case Cards(items) => Some(CardMessages(items, upload))
    case CtaUrlInput(options) => Some(CtaMessages(env.ctaEnabled, options, upload))
    case WhatsAppList(options, items) => Some(ListMessages(env.listEnabled, options, items, lastMessageText))
    case WhatsAppCarousel(bodyText, items) => Some(CarouselMessages(bodyText, items))
    case OtherInput => None
  }

  /** The conversion as the source runs it: the loops of the picture, card and list cases,
    * and the expressions of the others. */
  method ConvertInputToWhatsAppMessages(input: Input, env: Env, lastMessageText: Option<string>,
                                        selectLabel: Option<string>, upload: Uploader)
    returns (messages: Option<seq<Message>>)
    ensures messages == ConvertInput(input, env, lastMessageText, selectLabel, upload)
  {
    ghost var expected := ConvertInput(input, env, lastMessageText, selectLabel, upload);
    match input {
      case NoReplyInput(_) =>
        messages := Some([]);
      case PictureChoice(multiple, items) =>
        if (if multiple.Some? then multiple.value else env.pictureMultipleDefault) {
          var ms := PictureListLoop(items, upload);
          messages := Some(ms);
          assert expected == Some(PictureListMessages(items, upload));
        } else {
          var selectText := if selectLabel.Some? then selectLabel.value else env.defaultSelectLabel;
          var ms := PictureButtonsLoop(items, upload, selectText);
          assert ms == PictureButtonMessages(items, upload, selectText);
          messages := Some(ms);
          assert expected == Some(PictureButtonMessages(items, upload, selectText));
        }
      case Choice(multiple, items) =>
        if (if multiple.Some? then multiple.value else env.choiceMultipleDefault) {
          messages := Some([ChoiceListText(items, lastMessageText)]);
          assert expected == messages;
        } else {
          messages := Some(ChoiceButtonMessages(items, env.groupSize, lastMessageText));
          assert expected == messages;
        }
      case Cards(items) =>
        var ms := CardsLoop(items, upload);
        assert ms == CardMessages(items, upload);
        messages := Some(ms);
        assert expected == Some(CardMessages(items, upload));
      case CtaUrlInput(options) =>
        messages := Some(CtaMessages(env.ctaEnabled, options, upload));
        assert expected == messages;
      case WhatsAppList(options, items) =>
        var ms := ListCase(env.listEnabled, options, items, lastMessageText);
        messages := Some(ms);
        assert expected == Some(ListMessages(env.listEnabled, options, items, lastMessageText));
      case WhatsAppCarousel(bodyText, items) =>
        messages := Some(CarouselMessages(bodyText, items));
        assert expected == messages;
      case OtherInput =>
        messages := None;
    }
  }
}
