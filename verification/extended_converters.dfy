/** The flag-gated builders of the extended WhatsApp messages. Each builder returns no
  * message when its feature flag is off; the list builder also refuses inputs over the list
  * limits and the sticker builder one without media. The flags, read from the environment by
  * the source, are a parameter here. */
module ExtendedConverters {
  import opened Text
  import opened ExtendedSchemas

  /** `isFeatureEnabled`: the flag's value, or false when it is absent. */
  function IsFeatureEnabled(flags: FeatureFlags, feature: FeatureFlag): (r: bool)
    ensures r <==> feature in flags && flags[feature]
    ensures r == IsMessageTypeEnabled(feature, flags)
  {
    feature in flags && flags[feature]
  }

  datatype LocationInput = LocationInput(latitude: real, longitude: real, name: Option<string>, address: Option<string>)

  function CreateLocationMessage(flags: FeatureFlags, input: LocationInput): (r: Option<Location>)
    ensures r.None? <==> !IsFeatureEnabled(flags, EnableLocationMessages)
    ensures r.Some? ==> r.value == Location(input.longitude, input.latitude, input.name, input.address)
  {
    if !IsFeatureEnabled(flags, EnableLocationMessages) then None
    else Some(Location(longitude := input.longitude, latitude := input.latitude, name := input.name,
                       address := input.address))
  }

  datatype PhoneInput = PhoneInput(phone: string, kind: Option<PhoneKind>)
  datatype EmailInput = EmailInput(email: string, kind: Option<PlaceKind>)
  datatype ContactInput = ContactInput(formattedName: string, firstName: Option<string>, lastName: Option<string>,
                                       phones: Option<seq<PhoneInput>>, emails: Option<seq<EmailInput>>,
                                       company: Option<string>, department: Option<string>, title: Option<string>)

  function ConvertContact(c: ContactInput): Contact
  {
    Contact(
      name := ContactName(c.formattedName, c.firstName, c.lastName),
      phones := if c.phones.Some? then Some(seq(|c.phones.value|, i requires 0 <= i < |c.phones.value| =>
                                                  ContactPhone(Some(c.phones.value[i].phone), c.phones.value[i].kind)))
                else None,
      emails := if c.emails.Some? then Some(seq(|c.emails.value|, i requires 0 <= i < |c.emails.value| =>
                                                  ContactEmail(Some(c.emails.value[i].email), c.emails.value[i].kind)))
                else None,
      org := if Truthy(c.company) then Some(ContactOrg(c.company, c.department, c.title)) else None)
  }

  function CreateContactsMessage(flags: FeatureFlags, contacts: seq<ContactInput>): (r: Option<seq<Contact>>)
    ensures r.None? <==> !IsFeatureEnabled(flags, EnableContactsMessages)
    ensures r.Some? ==> |r.value| == |contacts|
  {
    if !IsFeatureEnabled(flags, EnableContactsMessages) then None
    else Some(seq(|contacts|, i requires 0 <= i < |contacts| => ConvertContact(contacts[i])))
  }

  /** Each built contact keeps the input's name, phones and e-mails in order, and carries an
    * organisation exactly when a company is given; the organisation then holds the input's
    * company, department and title. */
  lemma ContactsAreCopied(flags: FeatureFlags, contacts: seq<ContactInput>, i: nat)
    requires IsFeatureEnabled(flags, EnableContactsMessages) && i < |contacts|
    ensures var c, out := contacts[i], CreateContactsMessage(flags, contacts).value[i];
            && out.name == ContactName(c.formattedName, c.firstName, c.lastName)
            && (out.phones.Some? <==> c.phones.Some?)
            && (c.phones.Some? ==>
                  && |out.phones.value| == |c.phones.value|
                  && forall k :: 0 <= k < |c.phones.value| ==>
                       out.phones.value[k] == ContactPhone(Some(c.phones.value[k].phone), c.phones.value[k].kind))
            && (out.emails.Some? <==> c.emails.Some?)
            && (c.emails.Some? ==>
                  && |out.emails.value| == |c.emails.value|
                  && forall k :: 0 <= k < |c.emails.value| ==>
                       out.emails.value[k] == ContactEmail(Some(c.emails.value[k].email), c.emails.value[k].kind))
            && (out.org.Some? <==> Truthy(c.company))
            && (out.org.Some? ==> out.org.value == ContactOrg(c.company, c.department, c.title))
  {
  }

  datatype StickerInput = StickerInput(id: Option<string>, link: Option<string>)

  function CreateStickerMessage(flags: FeatureFlags, input: StickerInput): (r: Option<StickerMedia>)
    ensures r.None? <==> !IsFeatureEnabled(flags, EnableStickerMessages) || (!Truthy(input.id) && !Truthy(input.link))
    ensures r.Some? ==> r.value == StickerMedia(input.id, input.link)
  {
    if !IsFeatureEnabled(flags, EnableStickerMessages) then None
    else if !Truthy(input.id) && !Truthy(input.link) then None
    else Some(StickerMedia(id := input.id, link := input.link))
  }

  /** With stickers enabled, the builder refuses exactly the payloads the sticker schema
    * rejects, and what it builds passes the sticker union member. */
  lemma StickerBuilderMatchesSchema(flags: FeatureFlags, input: StickerInput)
    requires IsFeatureEnabled(flags, EnableStickerMessages)
    ensures CreateStickerMessage(flags, input).Some? <==> ValidSticker(StickerMedia(input.id, input.link))
    ensures CreateStickerMessage(flags, input).Some? ==>
              InExtendedSendingUnion(StickerMessage(CreateStickerMessage(flags, input).value))
  {
  }

  datatype ReactionInput = ReactionInput(messageId: string, emoji: string)

  function CreateReactionMessage(flags: FeatureFlags, input: ReactionInput): (r: Option<Reaction>)
    ensures r.None? <==> !IsFeatureEnabled(flags, EnableReactionMessages)
    ensures r.Some? ==> r.value == Reaction(input.messageId, input.emoji)
  {
    if !IsFeatureEnabled(flags, EnableReactionMessages) then None
    else Some(Reaction(messageId := input.messageId, emoji := input.emoji))
  }

  /** Whatever the builders of the four union types produce is admitted by the union. */
  lemma UnionBuildersPassTheUnion(flags: FeatureFlags, location: LocationInput, contacts: seq<ContactInput>,
                                  reaction: ReactionInput)
    ensures CreateLocationMessage(flags, location).Some? ==>
              InExtendedSendingUnion(LocationMessage(CreateLocationMessage(flags, location).value))
    ensures CreateContactsMessage(flags, contacts).Some? ==>
              InExtendedSendingUnion(ContactsMessage(CreateContactsMessage(flags, contacts).value))
    ensures CreateReactionMessage(flags, reaction).Some? ==>
              InExtendedSendingUnion(ReactionMessage(CreateReactionMessage(flags, reaction).value))
  {
  }

  datatype ListRowInput = ListRowInput(id: string, title: string, description: Option<string>)
  datatype ListSectionInput = ListSectionInput(title: Option<string>, rows: seq<ListRowInput>)
  datatype ListInput = ListInput(headerText: Option<string>, bodyText: string, footerText: Option<string>,
                                 buttonText: string, sections: seq<ListSectionInput>)

  /** The constraint loop of `createListMessage`: some section has more than 10 rows. */
  predicate SomeSectionTooLong(sections: seq<ListSectionInput>)
  {
    exists i :: 0 <= i < |sections| && |sections[i].rows| > 10
  }

  function ConvertListRow(row: ListRowInput): ListRow
  {
    ListRow(Take(row.id, 200), Take(row.title, 24), TakeOpt(row.description, 72))
  }

  function ConvertListSection(section: ListSectionInput): ListSection
  {
    ListSection(TakeOpt(section.title, 24),
                seq(|section.rows|, i requires 0 <= i < |section.rows| => ConvertListRow(section.rows[i])))
  }

  function CreateListMessage(flags: FeatureFlags, input: ListInput): (r: Option<ListMessage>)
    ensures r.None? <==>
              || !IsFeatureEnabled(flags, EnableListMessages)
              || |input.buttonText| > 20
              || |input.sections| > 10
              || SomeSectionTooLong(input.sections)
    ensures r.Some? ==>
              && r.value.header == TakeIfTruthy(input.headerText, 60)
              && r.value.body == Take(input.bodyText, 1024)
              && r.value.footer == TakeIfTruthy(input.footerText, 60)
              && r.value.button == input.buttonText
              && |r.value.sections| == |input.sections|
  {
    if !IsFeatureEnabled(flags, EnableListMessages) then None
    else if |input.buttonText| > 20 then None
    else if |input.sections| > 10 then None
    else if SomeSectionTooLong(input.sections) then None
    else
      Some(ListMessage(
        header := TakeIfTruthy(input.headerText, 60),
        body := Take(input.bodyText, 1024),
        footer := TakeIfTruthy(input.footerText, 60),
        button := Take(input.buttonText, 20),
        sections := seq(|input.sections|, i requires 0 <= i < |input.sections| => ConvertListSection(input.sections[i]))))
  }

  /** A built list keeps every section and row in order, with the section titles, row ids,
    * row titles and descriptions cut to 24, 200, 24 and 72 characters. */
  lemma ListKeepsSectionsAndRows(flags: FeatureFlags, input: ListInput, i: nat, k: nat)
    requires CreateListMessage(flags, input).Some? && i < |input.sections|
    ensures var out := CreateListMessage(flags, input).value.sections[i];
            var section := input.sections[i];
            && out.title == TakeOpt(section.title, 24)
            && |out.rows| == |section.rows|
            && (k < |section.rows| ==>
                  out.rows[k] == ListRow(Take(section.rows[k].id, 200), Take(section.rows[k].title, 24),
                                         TakeOpt(section.rows[k].description, 72)))
  {
  }

  /** What the list builder accepts passes the list schema exactly when there is at least
    * one section and no section is empty: the builder checks the upper limits only. */
  lemma {:induction false} BuiltListIsValidIffNoEmptyPart(flags: FeatureFlags, input: ListInput)
    requires CreateListMessage(flags, input).Some?
    ensures ValidListMessage(CreateListMessage(flags, input).value) <==>
              |input.sections| >= 1 && forall i :: 0 <= i < |input.sections| ==> |input.sections[i].rows| >= 1
  {
    var m := CreateListMessage(flags, input).value;
    forall i | 0 <= i < |input.sections|
      ensures |m.sections[i].rows| == |input.sections[i].rows| <= 10
      ensures forall k :: 0 <= k < |m.sections[i].rows| ==> ValidListRow(m.sections[i].rows[k])
    {
      assert !(|input.sections[i].rows| > 10);
    }
  }

  /** Concretely: a list with no sections, and one whose only section has no rows, are both
    * built and both rejected by the list schema. */
  lemma EmptyListsAreBuiltButInvalid(flags: FeatureFlags)
    requires IsFeatureEnabled(flags, EnableListMessages)
    ensures var noSections := ListInput(None, "Pick one", None, "Options", []);
            CreateListMessage(flags, noSections).Some? && !ValidListMessage(CreateListMessage(flags, noSections).value)
    ensures var noRows := ListInput(None, "Pick one", None, "Options", [ListSectionInput(None, [])]);
            CreateListMessage(flags, noRows).Some? && !ValidListMessage(CreateListMessage(flags, noRows).value)
  {
    var noRows := ListInput(None, "Pick one", None, "Options", [ListSectionInput(None, [])]);
    assert !SomeSectionTooLong(noRows.sections);
    assert CreateListMessage(flags, noRows).value.sections[0].rows == [];
  }

  datatype CtaUrlInput = CtaUrlInput(headerText: Option<string>, bodyText: string, footerText: Option<string>,
                                     displayText: string, url: string)

  function CreateCtaUrlMessage(flags: FeatureFlags, input: CtaUrlInput): (r: Option<CtaUrlMessage>)
    ensures r.None? <==> !IsFeatureEnabled(flags, EnableCtaUrlMessages)
    ensures r.Some? ==>
              && r.value.header == TakeIfTruthy(input.headerText, 60)
              && r.value.body == Take(input.bodyText, 1024)
              && r.value.footer == TakeIfTruthy(input.footerText, 60)
              && r.value.displayText == Take(input.displayText, 20)
              && r.value.url == input.url
  {
    if !IsFeatureEnabled(flags, EnableCtaUrlMessages) then None
    else
      Some(CtaUrlMessage(
        header := TakeIfTruthy(input.headerText, 60),
        body := Take(input.bodyText, 1024),
        footer := TakeIfTruthy(input.footerText, 60),
        displayText := Take(input.displayText, 20),
        url := input.url))
  }

  /** A built CTA-URL message passes its schema exactly when the url parses: every text is
    * cut to its limit and the url is copied as it is. */
  lemma BuiltCtaIsValidIffUrlParses(flags: FeatureFlags, input: CtaUrlInput, isUrl: string -> bool)
    requires IsFeatureEnabled(flags, EnableCtaUrlMessages)
    ensures ValidCtaUrlMessage(CreateCtaUrlMessage(flags, input).value, isUrl) <==> isUrl(input.url)
  {
  }

  /** Texts within their limits reach the CTA-URL message uncut; a header or footer is sent
    * exactly when it is a non-empty string. */
  lemma CtaWithinLimitsIsSentUncut(flags: FeatureFlags, input: CtaUrlInput)
    requires IsFeatureEnabled(flags, EnableCtaUrlMessages)
    requires OptionalAtMost(input.headerText, 60) && OptionalAtMost(input.footerText, 60)
    requires |input.bodyText| <= 1024 && |input.displayText| <= 20
    ensures var m := CreateCtaUrlMessage(flags, input).value;
            && m.body == input.bodyText && m.displayText == input.displayText && m.url == input.url
            && (m.header.Some? <==> Truthy(input.headerText)) && (m.header.Some? ==> m.header == input.headerText)
            && (m.footer.Some? <==> Truthy(input.footerText)) && (m.footer.Some? ==> m.footer == input.footerText)
  {
  }

  datatype ParameterInput =
    | TextInput(text: string)
    | CurrencyInput(fallbackValue: string, code: string, amount1000: real)
    | DateTimeInput(fallbackValue: string)
    | ImageInput(link: Option<string>, id: Option<string>)
    | DocumentInput(link: Option<string>, id: Option<string>, filename: Option<string>)
    | VideoInput(link: Option<string>, id: Option<string>)

  datatype ButtonParameterInput = ButtonParameterInput(kind: ButtonParameterKind, payload: Option<string>,
                                                       text: Option<string>, couponCode: Option<string>)

  datatype ComponentInput =
    | HeaderInput(parameters: Option<seq<ParameterInput>>)
    | BodyInput(parameters: Option<seq<ParameterInput>>)
    | ButtonInput(subType: ButtonSubType, index: real, buttonParameters: seq<ButtonParameterInput>)

  datatype TemplateInput = TemplateInput(name: string, languageCode: string, components: Option<seq<ComponentInput>>)

  /** `convertParameter`: the same kind, with the same values under the API's field names. */
  function ConvertParameter(p: ParameterInput): (r: TemplateParameter)
    ensures p.TextInput? <==> r.TextParameter?
    ensures p.CurrencyInput? <==> r.CurrencyParameter?
    ensures p.DateTimeInput? <==> r.DateTimeParameter?
    ensures p.ImageInput? <==> r.ImageParameter?
    ensures p.DocumentInput? <==> r.DocumentParameter?
    ensures p.VideoInput? <==> r.VideoParameter?
  {
    match p
    case TextInput(text) => TextParameter(text)
    case CurrencyInput(fallback, code, amount) => CurrencyParameter(fallback, code, amount)
    case DateTimeInput(fallback) => DateTimeParameter(fallback)
    case ImageInput(link, id) => ImageParameter(link, id)
    case DocumentInput(link, id, filename) => DocumentParameter(link, id, filename)
    case VideoInput(link, id) => VideoParameter(link, id)
  }

  function ConvertParameters(ps: Option<seq<ParameterInput>>): (r: Option<seq<TemplateParameter>>)
    ensures r.Some? <==> ps.Some?
    ensures r.Some? ==>
              && |r.value| == |ps.value|
              && forall i :: 0 <= i < |ps.value| ==> r.value[i] == ConvertParameter(ps.value[i])
  {
    if ps.None? then None
    else Some(seq(|ps.value|, i requires 0 <= i < |ps.value| => ConvertParameter(ps.value[i])))
  }

  function ConvertComponent(c: ComponentInput): (r: TemplateComponent)
    ensures c.HeaderInput? <==> r.HeaderComponent?
    ensures c.BodyInput? <==> r.BodyComponent?
    ensures c.ButtonInput? <==> r.ButtonComponent?
  {
    match c
    case HeaderInput(ps) => HeaderComponent(ConvertParameters(ps))
    case BodyInput(ps) => BodyComponent(ConvertParameters(ps))
    case ButtonInput(subType, index, bps) =>
      ButtonComponent(subType, index,
        seq(|bps|, i requires 0 <= i < |bps| =>
          ButtonParameter(bps[i].kind, bps[i].payload, bps[i].text, bps[i].couponCode)))
  }

  /** `createExtendedTemplateMessage`. It never refuses: with the flag off it falls back to
    * the name and language only. */
  function CreateExtendedTemplateMessage(flags: FeatureFlags, input: TemplateInput): (r: Template)
    ensures r.name == input.name && r.languageCode == input.languageCode
    ensures !IsFeatureEnabled(flags, EnableExtendedTemplates) ==> r.components.None?
    ensures IsFeatureEnabled(flags, EnableExtendedTemplates) ==> (r.components.Some? <==> input.components.Some?)
  {
    if !IsFeatureEnabled(flags, EnableExtendedTemplates) then Template(input.name, input.languageCode, None)
    else
      var cs := if input.components.None? then None
                else Some(seq(|input.components.value|, i requires 0 <= i < |input.components.value| =>
                            ConvertComponent(input.components.value[i])));
      Template(input.name, input.languageCode, cs)
  }

  /** With extended templates on, the components map one for one and in order: the same
    * kind, each parameter keeping its type tag and values, and button components keeping
    * their sub-type, index and parameters. */
  lemma TemplateComponentsMapOneForOne(flags: FeatureFlags, input: TemplateInput, i: nat)
    requires IsFeatureEnabled(flags, EnableExtendedTemplates)
    requires input.components.Some? && i < |input.components.value|
    ensures var out := CreateExtendedTemplateMessage(flags, input).components.value;
            var c := input.components.value[i];
            && |out| == |input.components.value|
            && (c.HeaderInput? ==> out[i] == HeaderComponent(ConvertParameters(c.parameters)))
            && (c.BodyInput? ==> out[i] == BodyComponent(ConvertParameters(c.parameters)))
            && (c.ButtonInput? ==>
                  && out[i].ButtonComponent?
                  && out[i].subType == c.subType && out[i].index == c.index
                  && |out[i].buttonParameters| == |c.buttonParameters|
                  && forall k :: 0 <= k < |c.buttonParameters| ==>
                       out[i].buttonParameters[k] == ButtonParameter(c.buttonParameters[k].kind,
                         c.buttonParameters[k].payload, c.buttonParameters[k].text, c.buttonParameters[k].couponCode))
  {
  }
}
