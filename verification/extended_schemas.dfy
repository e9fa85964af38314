/** The shapes of the extended WhatsApp message types (location, contacts, sticker, reaction,
  * interactive list, CTA-URL button, template with components), the validators that bound
  * their lengths and counts, and the feature flags that gate them. A shape the datatypes
  * already enforce (required fields, enumerations) needs no validator. */
module ExtendedSchemas {
  import opened Text

  /** The keys of the feature-flag record; a key may be absent. */
  datatype FeatureFlag =
    | EnableLocationMessages
    | EnableContactsMessages
    | EnableStickerMessages
    | EnableReactionMessages
    | EnableListMessages
    | EnableCtaUrlMessages
    | EnableExtendedTemplates

  type FeatureFlags = map<FeatureFlag, bool>

  /** `flags[type] ?? false`. */
  function IsMessageTypeEnabled(flag: FeatureFlag, flags: FeatureFlags): (r: bool)
    ensures r <==> flag in flags && flags[flag]
  {
    if flag in flags then flags[flag] else false
  }

  /** An absent flag is off, and a present flag is its value. */
  lemma AbsentFlagIsOff(flag: FeatureFlag, flags: FeatureFlags)
    ensures flag !in flags ==> !IsMessageTypeEnabled(flag, flags)
    ensures flag in flags ==> IsMessageTypeEnabled(flag, flags) == flags[flag]
  {
  }

  datatype Location = Location(longitude: real, latitude: real, name: Option<string>, address: Option<string>)

  datatype PhoneKind = Cell | Main | IPhone | HomePhone | WorkPhone
  datatype PlaceKind = Home | Work

  datatype ContactName = ContactName(formattedName: string, firstName: Option<string>, lastName: Option<string>)
  datatype ContactPhone = ContactPhone(phone: Option<string>, kind: Option<PhoneKind>)
  datatype ContactEmail = ContactEmail(email: Option<string>, kind: Option<PlaceKind>)
  datatype ContactOrg = ContactOrg(company: Option<string>, department: Option<string>, title: Option<string>)
  datatype Contact = Contact(name: ContactName, phones: Option<seq<ContactPhone>>, emails: Option<seq<ContactEmail>>,
                             org: Option<ContactOrg>)

  datatype StickerMedia = StickerMedia(id: Option<string>, link: Option<string>)

  /** The sticker refinement: a link or an id must be given (and not empty). */
  predicate ValidSticker(s: StickerMedia)
  {
    Truthy(s.link) || Truthy(s.id)
  }

  datatype Reaction = Reaction(messageId: string, emoji: string)

  datatype ListRow = ListRow(id: string, title: string, description: Option<string>)
  datatype ListSection = ListSection(title: Option<string>, rows: seq<ListRow>)

  /** An interactive list: optional text header, body, optional footer, the button that
    * opens the list and its sections. */
  datatype ListMessage = ListMessage(header: Option<string>, body: string, footer: Option<string>, button: string,
                                     sections: seq<ListSection>)

  predicate OptionalAtMost(s: Option<string>, n: nat)
  {
    s.Some? ==> |s.value| <= n
  }

  predicate ValidListRow(row: ListRow)
  {
    |row.id| <= 200 && |row.title| <= 24 && OptionalAtMost(row.description, 72)
  }

  predicate ValidListSection(section: ListSection)
  {
    && OptionalAtMost(section.title, 24)
    && 1 <= |section.rows| <= 10
    && forall i :: 0 <= i < |section.rows| ==> ValidListRow(section.rows[i])
  }

  predicate ValidListAction(button: string, sections: seq<ListSection>)
  {
    && |button| <= 20
    && 1 <= |sections| <= 10
    && forall i :: 0 <= i < |sections| ==> ValidListSection(sections[i])
  }

  predicate ValidListMessage(m: ListMessage)
  {
    && OptionalAtMost(m.header, 60)
    && |m.body| <= 1024
    && OptionalAtMost(m.footer, 60)
    && ValidListAction(m.button, m.sections)
  }

  /** An interactive message with one URL button. */
  datatype CtaUrlMessage = CtaUrlMessage(header: Option<string>, body: string, footer: Option<string>,
                                         displayText: string, url: string)

  /** The CTA-URL validator; whether a string parses as a URL is the parameter `isUrl`. */
  predicate ValidCtaUrlMessage(m: CtaUrlMessage, isUrl: string -> bool)
  {
    && OptionalAtMost(m.header, 60)
    && |m.body| <= 1024
    && OptionalAtMost(m.footer, 60)
    && |m.displayText| <= 20
    && isUrl(m.url)
  }

  datatype TemplateParameter =
    | TextParameter(text: string)
    | CurrencyParameter(fallbackValue: string, code: string, amount1000: real)
    | DateTimeParameter(fallbackValue: string)
    | ImageParameter(link: Option<string>, id: Option<string>)
    | DocumentParameter(link: Option<string>, id: Option<string>, filename: Option<string>)
    | VideoParameter(link: Option<string>, id: Option<string>)

  datatype ButtonSubType = QuickReply | Url | CopyCode
  datatype ButtonParameterKind = Payload | Text | CouponCode
  datatype ButtonParameter = ButtonParameter(kind: ButtonParameterKind, payload: Option<string>, text: Option<string>,
                                             couponCode: Option<string>)

  datatype TemplateComponent =
    | HeaderComponent(parameters: Option<seq<TemplateParameter>>)
    | BodyComponent(parameters: Option<seq<TemplateParameter>>)
    | ButtonComponent(subType: ButtonSubType, index: real, buttonParameters: seq<ButtonParameter>)

  datatype Template = Template(name: string, languageCode: string, components: Option<seq<TemplateComponent>>)

  /** Every extended message, tagged by its `type`. */
  datatype ExtendedMessage =
    | LocationMessage(location: Location)
    | ContactsMessage(contacts: seq<Contact>)
    | StickerMessage(sticker: StickerMedia)
    | ReactionMessage(reaction: Reaction)
    | InteractiveList(list: ListMessage)
    | InteractiveCtaUrl(cta: CtaUrlMessage)
    | TemplateMessage(template: Template)

  /** The combined extended sending union: it admits location, contacts, sticker and
    * reaction messages only (a sticker also has to pass its refinement). */
  predicate InExtendedSendingUnion(m: ExtendedMessage)
  {
    match m
    case LocationMessage(_) => true
    case ContactsMessage(_) => true
    case StickerMessage(s) => ValidSticker(s)
    case ReactionMessage(_) => true
    case _ => false
  }

  /** The union leaves out the interactive and template messages, whatever their contents. */
  lemma UnionAdmitsOnlyFourTypes(m: ExtendedMessage)
    ensures InExtendedSendingUnion(m) ==>
              m.LocationMessage? || m.ContactsMessage? || m.StickerMessage? || m.ReactionMessage?
    ensures m.InteractiveList? || m.InteractiveCtaUrl? || m.TemplateMessage? ==> !InExtendedSendingUnion(m)
  {
  }
}
