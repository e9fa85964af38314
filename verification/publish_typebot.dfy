/** Publishing a typebot. A missing typebot, or one the user may not edit, is not found; a
  * file-upload block cannot be published on the free plan; an unverified typebot already
  * rated above 80 is refused, and otherwise its risk is recomputed, saved when it changed,
  * reported for review above 60 (except at 100) and refused above 80, with the published
  * copy deleted. An unverified typebot whose title or description changed is checked for
  * trademarks. Before the copy is written, stickers that have a url but no WhatsApp media id
  * are uploaded and their ids saved on the typebot. The published copy is then updated, or
  * created with a "Typebot published" event.
  *
  * The risk computation, the trademark detector, the media upload, the write permission and
  * the events computed from the typebot are parameters; the database is the list of writes
  * in order. */
module PublishTypebot {
  import opened Text

  // ----- sticker back-fill -----

  datatype BlockType = StickerBlock | FileInputBlock | OtherBlock(name: string)

  /** A block, with the content fields a sticker has. */
  datatype Block = Block(id: string, blockType: BlockType, url: Option<string>, mediaId: Option<string>)

  datatype Group = Group(id: string, blocks: seq<Block>)

  /** A sticker with a url and no media id yet. */
  predicate NeedsUpload(b: Block)
  {
    b.blockType == StickerBlock && Truthy(b.url) && !Truthy(b.mediaId)
  }

  /** The upload of this block gives a media id. */
  predicate UploadsSticker(b: Block, upload: string -> Option<string>)
  {
    NeedsUpload(b) && Truthy(upload(b.url.value))
  }

  /** The block after the back-fill: the uploaded id on a sticker that needed one and got
    * one; otherwise the block as it was. */
  function BackfillBlock(b: Block, upload: string -> Option<string>): (r: Block)
    ensures r.id == b.id && r.blockType == b.blockType && r.url == b.url
    ensures UploadsSticker(b, upload) ==> r.mediaId == upload(b.url.value) && Truthy(r.mediaId)
    ensures !UploadsSticker(b, upload) ==> r == b
  {
    if UploadsSticker(b, upload) then b.(mediaId := upload(b.url.value)) else b
  }

  function BackfillGroup(g: Group, upload: string -> Option<string>): (r: Group)
    ensures r.id == g.id && |r.blocks| == |g.blocks|
    ensures forall i :: 0 <= i < |r.blocks| ==> r.blocks[i] == BackfillBlock(g.blocks[i], upload)
  {
    g.(blocks := seq(|g.blocks|, i requires 0 <= i < |g.blocks| => BackfillBlock(g.blocks[i], upload)))
  }

  function BackfillGroups(groups: seq<Group>, upload: string -> Option<string>): (r: seq<Group>)
    ensures |r| == |groups|
    ensures forall g :: 0 <= g < |r| ==> r[g] == BackfillGroup(groups[g], upload)
  {
    seq(|groups|, g requires 0 <= g < |groups| => BackfillGroup(groups[g], upload))
  }

  predicate GroupHasUpload(g: Group, upload: string -> Option<string>)
  {
    exists b :: 0 <= b < |g.blocks| && UploadsSticker(g.blocks[b], upload)
  }

  /** Some sticker gets a media id. */
  predicate HasStickerUpload(groups: seq<Group>, upload: string -> Option<string>)
  {
    exists g :: 0 <= g < |groups| && GroupHasUpload(groups[g], upload)
  }

  /** The nested loops over groups and blocks: each sticker that needs an id is uploaded,
    * and the id set on the block when the upload gives one. */
  method BackfillStickers(groups: seq<Group>, upload: string -> Option<string>)
    returns (result: seq<Group>, hasChanges: bool)
    ensures result == BackfillGroups(groups, upload)
    ensures hasChanges <==> HasStickerUpload(groups, upload)
  {
    result := groups;
    hasChanges := false;
    var gi := 0;
    while gi < |result|
      invariant 0 <= gi <= |groups| && |result| == |groups|
      invariant forall g :: 0 <= g < gi ==> result[g] == BackfillGroup(groups[g], upload)
      invariant forall g :: gi <= g < |groups| ==> result[g] == groups[g]
      invariant hasChanges <==> exists g :: 0 <= g < gi && GroupHasUpload(groups[g], upload)
    {
      var blocks, changed := BackfillBlocks(result[gi], upload);
      result := result[gi := result[gi].(blocks := blocks)];
      hasChanges := hasChanges || changed;
      gi := gi + 1;
    }
  }

  /** The inner loop over one group's blocks: the back-filled blocks, and whether some
    * sticker got an id. */
  method BackfillBlocks(group: Group, upload: string -> Option<string>) returns (blocks: seq<Block>, changed: bool)
    ensures group.(blocks := blocks) == BackfillGroup(group, upload)
    ensures changed <==> GroupHasUpload(group, upload)
  {
    blocks := group.blocks;
    changed := false;
    var bi := 0;
    while bi < |blocks|
      invariant 0 <= bi <= |blocks| && |blocks| == |group.blocks|
      invariant forall b :: 0 <= b < bi ==> blocks[b] == BackfillBlock(group.blocks[b], upload)
      invariant forall b :: bi <= b < |blocks| ==> blocks[b] == group.blocks[b]
      invariant changed <==> exists b :: 0 <= b < bi && UploadsSticker(group.blocks[b], upload)
    {
      var block := blocks[bi];
      if block.blockType == StickerBlock && Truthy(block.url) && !Truthy(block.mediaId) {
        var mediaId := upload(block.url.value);
        if Truthy(mediaId) {
          blocks := blocks[bi := block.(mediaId := mediaId)];
          changed := true;
        }
      }
      bi := bi + 1;
    }
    assert group.(blocks := blocks).blocks == BackfillGroup(group, upload).blocks;
  }

  /** The typebot write of `uploadStickersIfNeeded`: the back-filled groups, when the
    * workspace has WhatsApp credentials, the typebot a public id, and some sticker got an id. */
  function StickerWrite(hasCredentials: bool, publicId: Option<string>, groups: seq<Group>,
                        upload: string -> Option<string>): (r: Option<seq<Group>>)
    ensures r.Some? <==> hasCredentials && Truthy(publicId) && HasStickerUpload(groups, upload)
    ensures r.Some? ==> r.value == BackfillGroups(groups, upload)
  {
    if !hasCredentials || !Truthy(publicId) then None
    else if HasStickerUpload(groups, upload) then Some(BackfillGroups(groups, upload))
    else None
  }

  /** `uploadStickersIfNeeded`. */
  method UploadStickersIfNeeded(hasCredentials: bool, publicId: Option<string>, groups: seq<Group>,
                                upload: string -> Option<string>) returns (write: Option<seq<Group>>)
    ensures write == StickerWrite(hasCredentials, publicId, groups, upload)
  {
    if !hasCredentials || !Truthy(publicId) {
      return None;
    }
    var newGroups, hasChanges := BackfillStickers(groups, upload);
    if hasChanges {
      write := Some(newGroups);
    } else {
      write := None;
    }
  }

  /** The back-fill changes only the media id of stickers that had a url and no id, and
    * only to an id the upload gave. */
  lemma BackfillTouchesOnlyStickersNeedingIds(groups: seq<Group>, upload: string -> Option<string>)
    ensures forall g, b :: 0 <= g < |groups| && 0 <= b < |groups[g].blocks| ==>
              var old_, new_ := groups[g].blocks[b], BackfillGroups(groups, upload)[g].blocks[b];
              new_ != old_ ==>
                NeedsUpload(old_) && new_ == old_.(mediaId := upload(old_.url.value)) && Truthy(new_.mediaId)
  {
  }

  /** A second back-fill with the same uploads changes nothing: every sticker it would touch
    * already has its id, and the others would fail again. */
  lemma BackfillIsIdempotent(groups: seq<Group>, upload: string -> Option<string>)
    ensures BackfillGroups(BackfillGroups(groups, upload), upload) == BackfillGroups(groups, upload)
    ensures !HasStickerUpload(BackfillGroups(groups, upload), upload)
  {
    var once := BackfillGroups(groups, upload);
    forall g, b | 0 <= g < |once| && 0 <= b < |once[g].blocks|
      ensures !UploadsSticker(once[g].blocks[b], upload)
    {
      assert once[g].blocks[b] == BackfillBlock(groups[g].blocks[b], upload);
    }
    forall g | 0 <= g < |once|
      ensures BackfillGroup(once[g], upload) == once[g]
    {
      assert BackfillGroup(once[g], upload).blocks == once[g].blocks;
    }
  }

  // ----- publishing -----

  datatype Plan = Free | Starter | Pro | Lifetime | Unlimited | Custom | Enterprise | Offered

  datatype Workspace = Workspace(id: string, plan: Plan, isVerified: bool, hasWhatsAppCredentials: bool)

  datatype Metadata = Metadata(title: Option<string>, description: Option<string>)

  /** The published copy, as far as publishing reads it. */
  datatype PublishedCopy = PublishedCopy(id: string, metadata: Option<Metadata>)

  datatype StoredTypebot = StoredTypebot(id: string, name: string, publicId: Option<string>, riskLevel: Option<int>,
                                         workspace: Workspace, groups: seq<Group>, metadata: Option<Metadata>,
                                         published: Option<PublishedCopy>)

  datatype PublishError = NotFound | BadRequest | Forbidden

  datatype Event = TypebotPublished(workspaceId: string, typebotId: string, userId: string, isFirstPublish: bool)
                 | OtherEvent(name: string)

  datatype Warning = TrademarkInfringement(trademark: string)

  /** A write of publishing, in order. */
  datatype PublishWrite =
    | ReviewMessage(typebotId: string)
    | SaveRiskLevel(riskLevel: int)
    | DeleteCopy(copyId: string)
    | SaveStickerIds(groups: seq<Group>)
    | UpdateCopy(updatedId: string, copyGroups: seq<Group>)
    | CreateCopy(typebotId: string, newGroups: seq<Group>)
    | TrackEvents(events: seq<Event>)

  datatype PublishOutcome = PublishOutcome(result: Result<seq<Warning>, PublishError>, writes: seq<PublishWrite>)

  datatype Result<T, E> = Success(value: T) | Failure(error: E)

  predicate HasFileUploadBlock(groups: seq<Group>)
  {
    exists g, b :: 0 <= g < |groups| && 0 <= b < |groups[g].blocks| && groups[g].blocks[b].blockType == FileInputBlock
  }

  /** The typebot counts as verified when its risk level is -1 or its workspace is verified. */
  predicate WasVerified(t: StoredTypebot)
  {
    t.riskLevel == Some(-1) || t.workspace.isVerified
  }

  function TitleOf(m: Option<Metadata>): Option<string>
  {
    if m.Some? then m.value.title else None
  }

  function DescriptionOf(m: Option<Metadata>): Option<string>
  {
    if m.Some? then m.value.description else None
  }

  /** The metadata of the published copy, when there is one. */
  function PublishedMetadata(t: StoredTypebot): Option<Metadata>
  {
    if t.published.Some? then t.published.value.metadata else None
  }

  /** The trademark warnings: only for an unverified typebot whose title or description
    * differs from the published one, and only when the detector names a trademark. */
  function TrademarkWarnings(t: StoredTypebot, detect: Option<Metadata> -> Option<string>): (r: seq<Warning>)
    ensures |r| <= 1
    ensures |r| == 1 <==> !WasVerified(t) && Truthy(detect(t.metadata))
                          && (TitleOf(t.metadata) != TitleOf(PublishedMetadata(t))
                              || DescriptionOf(t.metadata) != DescriptionOf(PublishedMetadata(t)))
    ensures |r| == 1 ==> r[0] == TrademarkInfringement(detect(t.metadata).value)
  {
    if WasVerified(t) then []
    else if TitleOf(t.metadata) != TitleOf(PublishedMetadata(t)) || DescriptionOf(t.metadata) != DescriptionOf(PublishedMetadata(t)) then
      var detected := detect(t.metadata);
      if Truthy(detected) then [TrademarkInfringement(detected.value)] else []
    else []
  }

  /** The risk writes after recomputation: a review message when 60 < risk != 100, the new
    * risk, and the deletion of the published copy above 80; nothing when the risk is 0 or
    * unchanged. */
  function RiskWrites(t: StoredTypebot, risk: int): (r: seq<PublishWrite>)
    ensures r == [] <==> risk <= 0 || Some(risk) == t.riskLevel
    ensures r != [] ==> SaveRiskLevel(risk) in r
    ensures ReviewMessage(t.id) in r <==> risk > 0 && Some(risk) != t.riskLevel && risk != 100 && risk > 60
    ensures t.published.Some? ==> (DeleteCopy(t.published.value.id) in r <==> risk > 80 && Some(risk) != t.riskLevel)
    ensures forall w :: w in r && w.DeleteCopy? ==> t.published.Some? && w.copyId == t.published.value.id
  {
    if risk > 0 && Some(risk) != t.riskLevel then
      (if risk != 100 && risk > 60 then [ReviewMessage(t.id)] else [])
      + [SaveRiskLevel(risk)]
      + (if risk > 80 && t.published.Some? then [DeleteCopy(t.published.value.id)] else [])
    else []
  }

  /** `publishTypebot` on the typebot found (if any), with the permission, the risk the radar
    * computes, the trademark detector, the events computed from the typebot and the media
    * upload as parameters. */
  function Publish(found: Option<StoredTypebot>, writeForbidden: bool, userId: string, computedRisk: int,
                   detect: Option<Metadata> -> Option<string>, baseEvents: seq<Event>,
                   upload: string -> Option<string>): (r: PublishOutcome)
    ensures found.None? || writeForbidden ==> r == PublishOutcome(Failure(NotFound), [])
    ensures (found.Some? && !writeForbidden && HasFileUploadBlock(found.value.groups) && found.value.workspace.plan == Free)
              ==> r == PublishOutcome(Failure(BadRequest), [])
  {
    PublishWith(found, writeForbidden, userId, computedRisk, detect, baseEvents, upload, false)
  }

  /** The steps of publishing, with the copy written from the groups read at the start or,
    * when `copyBackfilled` holds, from the groups after the sticker back-fill. */
  function PublishWith(found: Option<StoredTypebot>, writeForbidden: bool, userId: string, computedRisk: int,
                       detect: Option<Metadata> -> Option<string>, baseEvents: seq<Event>,
                       upload: string -> Option<string>, copyBackfilled: bool): PublishOutcome
  {
    if found.None? || writeForbidden then PublishOutcome(Failure(NotFound), [])
    else
      var t := found.value;
      if HasFileUploadBlock(t.groups) && t.workspace.plan == Free then PublishOutcome(Failure(BadRequest), [])
      else
        var verified := WasVerified(t);
        if !verified && t.riskLevel.Some? && t.riskLevel.value != 0 && t.riskLevel.value > 80 then
          PublishOutcome(Failure(Forbidden), [])
        else
          var risk := if verified then 0 else computedRisk;
          var riskWrites := RiskWrites(t, risk);
          if risk > 0 && Some(risk) != t.riskLevel && risk > 80 then PublishOutcome(Failure(Forbidden), riskWrites)
          else
            var warnings := TrademarkWarnings(t, detect);
            var stickers := StickerWrite(t.workspace.hasWhatsAppCredentials, t.publicId, t.groups, upload);
            var stickerWrites := if stickers.Some? then [SaveStickerIds(stickers.value)] else [];
            var copyGroups := if copyBackfilled && stickers.Some? then stickers.value else t.groups;
            PublishOutcome(Success(warnings), riskWrites + stickerWrites
                                              + [CopyWrite(t, copyGroups), TrackEvents(PublishEvents(t, userId, baseEvents))])
  }

  /** The copy write of the given groups: an update of the published copy, or a new one. */
  function CopyWrite(t: StoredTypebot, groups: seq<Group>): PublishWrite
  {
    if t.published.Some? then UpdateCopy(t.published.value.id, groups) else CreateCopy(t.id, groups)
  }

  /** The events sent: a first publish adds a `TypebotPublished` event. */
  function PublishEvents(t: StoredTypebot, userId: string, baseEvents: seq<Event>): seq<Event>
  {
    if t.published.Some? then baseEvents else baseEvents + [TypebotPublished(t.workspace.id, t.id, userId, true)]
  }

  /** A verified typebot is never rated, refused by the radar or warned about trademarks. */
  lemma VerifiedTypebotSkipsTheRadar(t: StoredTypebot, userId: string, computedRisk: int,
                                     detect: Option<Metadata> -> Option<string>, baseEvents: seq<Event>,
                                     upload: string -> Option<string>)
    requires WasVerified(t) && !(HasFileUploadBlock(t.groups) && t.workspace.plan == Free)
    ensures var r := Publish(Some(t), false, userId, computedRisk, detect, baseEvents, upload);
            && r.result == Success([])
            && forall w :: w in r.writes ==> !w.SaveRiskLevel? && !w.ReviewMessage? && !w.DeleteCopy?
  {
  }

  /** An unverified typebot already rated above 80 is refused before anything is written or
    * recomputed. */
  lemma HighStoredRiskIsRefusedFirst(t: StoredTypebot, userId: string, computedRisk: int,
                                     detect: Option<Metadata> -> Option<string>, baseEvents: seq<Event>,
                                     upload: string -> Option<string>)
    requires !WasVerified(t) && t.riskLevel.Some? && t.riskLevel.value > 80
    requires !(HasFileUploadBlock(t.groups) && t.workspace.plan == Free)
    ensures Publish(Some(t), false, userId, computedRisk, detect, baseEvents, upload) == PublishOutcome(Failure(Forbidden), [])
  {
  }

  /** A new risk above 80 saves the risk, deletes the published copy if there is one, and
    * refuses: no copy is written and no sticker id saved. */
  lemma NewHighRiskRemovesTheCopy(t: StoredTypebot, userId: string, computedRisk: int,
                                  detect: Option<Metadata> -> Option<string>, baseEvents: seq<Event>,
                                  upload: string -> Option<string>)
    requires !WasVerified(t) && !(HasFileUploadBlock(t.groups) && t.workspace.plan == Free)
    requires t.riskLevel.None? || t.riskLevel.value <= 80
    requires computedRisk > 80
    ensures var r := Publish(Some(t), false, userId, computedRisk, detect, baseEvents, upload);
            && r.result == Failure(Forbidden)
            && SaveRiskLevel(computedRisk) in r.writes
            && (ReviewMessage(t.id) in r.writes <==> computedRisk != 100)
            && (t.published.Some? ==> DeleteCopy(t.published.value.id) in r.writes)
            && forall w :: w in r.writes ==> !w.UpdateCopy? && !w.CreateCopy? && !w.SaveStickerIds?
  {
  }

  /** A successful publish ends with exactly one copy write and the events: an update of
    * the existing copy, or a created copy with a first-publish event. */
  lemma SuccessWritesTheCopyOnce(found: Option<StoredTypebot>, writeForbidden: bool, userId: string, computedRisk: int,
                                 detect: Option<Metadata> -> Option<string>, baseEvents: seq<Event>,
                                 upload: string -> Option<string>)
    requires Publish(found, writeForbidden, userId, computedRisk, detect, baseEvents, upload).result.Success?
    ensures var r := Publish(found, writeForbidden, userId, computedRisk, detect, baseEvents, upload);
            var t := found.value;
            && |r.writes| >= 2
            && r.writes[|r.writes| - 2] == (if t.published.Some? then UpdateCopy(t.published.value.id, t.groups)
                                           else CreateCopy(t.id, t.groups))
            && r.writes[|r.writes| - 1] == TrackEvents(if t.published.Some? then baseEvents
                                                      else baseEvents + [TypebotPublished(t.workspace.id, t.id, userId, true)])
            && (forall i :: 0 <= i < |r.writes| - 2 ==> !r.writes[i].UpdateCopy? && !r.writes[i].CreateCopy?)
            && |r.result.value| <= 1
  {
    var t := found.value;
    var pre := SuccessfulWrites(found, writeForbidden, userId, computedRisk, detect, baseEvents, upload);
    EndsWithTwo(pre, CopyWrite(t, t.groups), TrackEvents(PublishEvents(t, userId, baseEvents)));
  }

  /** The writes of a successful publish: the risk writes and the sticker write, none of which
    * writes the copy, then the copy and the events. */
  lemma SuccessfulWrites(found: Option<StoredTypebot>, writeForbidden: bool, userId: string, computedRisk: int,
                         detect: Option<Metadata> -> Option<string>, baseEvents: seq<Event>,
                         upload: string -> Option<string>) returns (pre: seq<PublishWrite>)
    requires Publish(found, writeForbidden, userId, computedRisk, detect, baseEvents, upload).result.Success?
    ensures found.Some?
    ensures var r := Publish(found, writeForbidden, userId, computedRisk, detect, baseEvents, upload);
            && r.writes == pre + [CopyWrite(found.value, found.value.groups), TrackEvents(PublishEvents(found.value, userId, baseEvents))]
            && |r.result.value| <= 1
    ensures forall w :: w in pre ==> !w.UpdateCopy? && !w.CreateCopy?
  {
    var t := found.value;
    var risk := if WasVerified(t) then 0 else computedRisk;
    var stickers := StickerWrite(t.workspace.hasWhatsAppCredentials, t.publicId, t.groups, upload);
    pre := RiskWrites(t, risk) + (if stickers.Some? then [SaveStickerIds(stickers.value)] else []);
    RiskWritesNoCopy(t, risk);
  }

  /** The risk writes never write the published copy. */
  lemma RiskWritesNoCopy(t: StoredTypebot, risk: int)
    ensures forall w :: w in RiskWrites(t, risk) ==> !w.UpdateCopy? && !w.CreateCopy?
  {
  }

  /** The last two of `pre + [a, b]` are `a` and `b`, and every earlier one is in `pre`. */
  lemma EndsWithTwo<T>(pre: seq<T>, a: T, b: T)
    ensures var s := pre + [a, b];
            |s| == |pre| + 2 && s[|s| - 2] == a && s[|s| - 1] == b
            && forall i :: 0 <= i < |s| - 2 ==> s[i] in pre
  {
  }

  /** The copy is written from the groups read before the back-fill: a sticker that gets its
    * media id while publishing has it saved on the typebot, but the copy published now still
    * lacks it. */
  lemma PublishedCopyMissesNewStickerIds(t: StoredTypebot, userId: string, detect: Option<Metadata> -> Option<string>,
                                         baseEvents: seq<Event>, upload: string -> Option<string>, g: nat, b: nat)
    requires WasVerified(t) && !(HasFileUploadBlock(t.groups) && t.workspace.plan == Free)
    requires t.workspace.hasWhatsAppCredentials && Truthy(t.publicId)
    requires g < |t.groups| && b < |t.groups[g].blocks| && UploadsSticker(t.groups[g].blocks[b], upload)
    ensures var r := Publish(Some(t), false, userId, 0, detect, baseEvents, upload);
            var copy := r.writes[|r.writes| - 2];
            && r.writes[0] == SaveStickerIds(BackfillGroups(t.groups, upload))
            && Truthy(BackfillGroups(t.groups, upload)[g].blocks[b].mediaId)
            && (copy.UpdateCopy? || copy.CreateCopy?)
            && !Truthy((if copy.UpdateCopy? then copy.copyGroups else copy.newGroups)[g].blocks[b].mediaId)
  {
    assert GroupHasUpload(t.groups[g], upload);
  }

  /** Publishing with the copy written after the back-fill, so that the copy carries the ids
    * the typebot saves. */
  function PublishCopyingStickerIds(found: Option<StoredTypebot>, writeForbidden: bool, userId: string,
                                    computedRisk: int, detect: Option<Metadata> -> Option<string>,
                                    baseEvents: seq<Event>, upload: string -> Option<string>): PublishOutcome
  {
    PublishWith(found, writeForbidden, userId, computedRisk, detect, baseEvents, upload, true)
  }

  /** Without a sticker to fill, the back-fill leaves the groups as they are. */
  lemma BackfillWithoutUploadsKeepsGroups(groups: seq<Group>, upload: string -> Option<string>)
    requires !HasStickerUpload(groups, upload)
    ensures BackfillGroups(groups, upload) == groups
  {
    forall g | 0 <= g < |groups| ensures BackfillGroup(groups[g], upload) == groups[g] {
      forall b | 0 <= b < |groups[g].blocks| ensures BackfillBlock(groups[g].blocks[b], upload) == groups[g].blocks[b] {
        assert !GroupHasUpload(groups[g], upload);
      }
      assert BackfillGroup(groups[g], upload).blocks == groups[g].blocks;
    }
  }

  /** The copy that publishing writes, written after the back-fill, holds the back-filled
    * groups whenever the workspace can upload stickers: every sticker id saved on the
    * typebot is in the published copy too; the rest of publishing is unchanged. */
  lemma CopyCarriesTheSavedStickerIds(t: StoredTypebot, userId: string, computedRisk: int,
                                      detect: Option<Metadata> -> Option<string>, baseEvents: seq<Event>,
                                      upload: string -> Option<string>)
    requires PublishCopyingStickerIds(Some(t), false, userId, computedRisk, detect, baseEvents, upload).result.Success?
    ensures var r := PublishCopyingStickerIds(Some(t), false, userId, computedRisk, detect, baseEvents, upload);
            var asWritten := Publish(Some(t), false, userId, computedRisk, detect, baseEvents, upload);
            var groups := if t.workspace.hasWhatsAppCredentials && Truthy(t.publicId)
                          then BackfillGroups(t.groups, upload) else t.groups;
            && |r.writes| == |asWritten.writes| >= 2
            && r.result == asWritten.result
            && r.writes[|r.writes| - 2] == CopyWrite(t, groups)
            && (forall i :: 0 <= i < |r.writes| && i != |r.writes| - 2 ==> r.writes[i] == asWritten.writes[i])
  {
    if t.workspace.hasWhatsAppCredentials && Truthy(t.publicId) && !HasStickerUpload(t.groups, upload) {
      BackfillWithoutUploadsKeepsGroups(t.groups, upload);
    }
  }
}
