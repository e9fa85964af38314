/** Starting a WhatsApp preview of a typebot. The recipient number loses its whitespace,
  * "+" and "-"; the preview environment (sender phone number id, system user token,
  * template name) must be configured; the typebot must exist and be readable. Stickers are
  * uploaded as when publishing. The preview session `wa-preview-<number>` may receive direct
  * messages when it was updated in the last 24 hours: then the reply is sent and the state
  * saved on that session; otherwise the session is restarted in registering mode and the
  * preview template is sent.
  *
  * The clock, the session lookup, the bot engine and the WhatsApp sends are parameters or
  * left out; the effects are listed in order. */
module WhatsAppPreview {
  import opened Text
  import Webhook
  import PublishTypebot
  import SaveState

  // ----- recipient number -----

  /** The characters of JavaScript's `\s`: the ASCII whitespace, the no-break space, the
    * Unicode space separators, the line and paragraph separators and the byte-order mark. */
  predicate IsJsWhitespace(c: char)
  {
    c == ' ' || c == '\t' || c == '\n' || c == '\r' || c == '\U{0B}' || c == '\U{0C}'
    || c == '\U{A0}' || c == '\U{1680}' || ('\U{2000}' <= c <= '\U{200A}') || c == '\U{2028}' || c == '\U{2029}'
    || c == '\U{202F}' || c == '\U{205F}' || c == '\U{3000}' || c == '\U{FEFF}'
  }

  /** `s.replace(/x/g, "")` for the characters `drop` selects. */
  function RemoveAll(s: string, drop: char -> bool): (r: string)
    ensures |r| <= |s|
    ensures forall i :: 0 <= i < |r| ==> !drop(r[i]) && r[i] in s
    decreases |s|
  {
    if s == [] then []
    else
      var rest := RemoveAll(s[..|s| - 1], drop);
      if drop(s[|s| - 1]) then rest else rest + [s[|s| - 1]]
  }

  predicate IsPlus(c: char)
  {
    c == '+'
  }

  predicate IsMinus(c: char)
  {
    c == '-'
  }

  predicate IsWhitespaceOrPlus(c: char)
  {
    IsJsWhitespace(c) || c == '+'
  }

  /** The characters the recipient number loses. */
  predicate IsDropped(c: char)
  {
    IsJsWhitespace(c) || c == '+' || c == '-'
  }

  /** The `to` transform: whitespace, then "+", then "-" removed. */
  function NormalizeRecipient(to: string): (r: string)
  {
    RemoveAll(RemoveAll(RemoveAll(to, IsJsWhitespace), IsPlus), IsMinus)
  }

  /** Removing with `p` then `q` removes with their union `u`. */
  lemma {:induction false} RemoveAllTwice(s: string, p: char -> bool, q: char -> bool, u: char -> bool)
    requires forall c :: u(c) == (p(c) || q(c))
    ensures RemoveAll(RemoveAll(s, p), q) == RemoveAll(s, u)
    decreases |s|
  {
    if s != [] {
      var init := s[..|s| - 1];
      RemoveAllTwice(init, p, q, u);
      var once := RemoveAll(init, p);
      if !p(s[|s| - 1]) {
        assert (once + [s[|s| - 1]])[..|once|] == once;
      }
    }
  }

  /** Removing the same characters twice removes nothing more. */
  lemma {:induction false} RemoveAllIdempotent(s: string, drop: char -> bool)
    ensures RemoveAll(RemoveAll(s, drop), drop) == RemoveAll(s, drop)
    decreases |s|
  {
    if s != [] {
      var init := s[..|s| - 1];
      RemoveAllIdempotent(init, drop);
      var once := RemoveAll(init, drop);
      if !drop(s[|s| - 1]) {
        assert (once + [s[|s| - 1]])[..|once|] == once;
      }
    }
  }

  /** The three replacements remove exactly the dropped characters, keeping every other
    * character in order. */
  lemma NormalizeRecipientDropsExactly(to: string)
    ensures NormalizeRecipient(to) == RemoveAll(to, IsDropped)
    ensures forall i :: 0 <= i < |NormalizeRecipient(to)| ==> !IsDropped(NormalizeRecipient(to)[i])
  {
    RemoveAllTwice(to, IsJsWhitespace, IsPlus, IsWhitespaceOrPlus);
    RemoveAllTwice(to, IsWhitespaceOrPlus, IsMinus, IsDropped);
  }

  /** Normalising a normalised number changes nothing. */
  lemma NormalizeRecipientIdempotent(to: string)
    ensures NormalizeRecipient(NormalizeRecipient(to)) == NormalizeRecipient(to)
  {
    NormalizeRecipientDropsExactly(to);
    NormalizeRecipientDropsExactly(NormalizeRecipient(to));
    RemoveAllIdempotent(to, IsDropped);
  }

  /** Digits pass through unchanged. */
  lemma {:induction false} DigitsAreKept(to: string)
    requires AllDigits(to)
    ensures NormalizeRecipient(to) == to
  {
    NormalizeRecipientDropsExactly(to);
    DigitsSurviveRemoval(to);
  }

  lemma {:induction false} DigitsSurviveRemoval(s: string)
    requires AllDigits(s)
    ensures RemoveAll(s, IsDropped) == s
    decreases |s|
  {
    if s != [] {
      var init := s[..|s| - 1];
      assert AllDigits(init) by {
        forall i | 0 <= i < |init| ensures IsDigit(init[i]) {
          assert init[i] == s[i];
        }
      }
      DigitsSurviveRemoval(init);
      var last := s[|s| - 1];
      DigitIsNotDropped(last);
      assert RemoveAll(s, IsDropped) == RemoveAll(init, IsDropped) + [last];
      assert init + [last] == s;
    }
  }

  lemma DigitIsNotDropped(c: char)
    requires IsDigit(c)
    ensures !IsDropped(c)
  {
  }

  // ----- the preview -----

  const DayMs: int := 24 * 60 * 60 * 1000

  /** The preview environment. */
  datatype PreviewEnv = PreviewEnv(fromPhoneNumberId: Option<string>, systemUserToken: Option<string>,
                                   templateName: Option<string>, templateLang: Option<string>)

  predicate EnvConfigured(env: PreviewEnv)
  {
    Truthy(env.fromPhoneNumberId) && Truthy(env.systemUserToken) && Truthy(env.templateName)
  }

  function PreviewSessionId(to: string): string
  {
    Webhook.PreviewSessionIdPrefix + to
  }

  /** The session is reachable directly iff it was updated in the last 24 hours; without a
    * session its time reads as 0. */
  function CanSendDirectMessages(updatedAt: Option<int>, now: int): (r: bool)
    ensures updatedAt.Some? ==> (r <==> updatedAt.value > now - DayMs)
    ensures updatedAt.None? ==> (r <==> now < DayMs)
  {
    (if updatedAt.Some? then updatedAt.value else 0) > now - DayMs
  }

  /** After the first day of the epoch, no session means no direct message. */
  lemma NoSessionMeansTemplate(now: int)
    requires now >= DayMs
    ensures !CanSendDirectMessages(None, now)
  {
  }

  datatype PreviewError = BadRequest | NotFound

  datatype Effect =
    | SaveStickerIds(groups: seq<PublishTypebot.Group>)
    | StartSession(sessionId: string, isOnlyRegistering: bool)
    | SendReply(to: string)
    | SaveSession(writes: seq<SaveState.Write>)
    | RestartSession(restartedId: string)
    | SendTemplate(recipient: string, name: string, lang: Option<string>)

  datatype PreviewOutcome = PreviewOutcome(result: PublishTypebot.Result<string, PreviewError>, effects: seq<Effect>)

  /** The typebot found for the preview. */
  datatype PreviewTypebot = PreviewTypebot(id: string, publicId: Option<string>, groups: seq<PublishTypebot.Group>)

  /** `uploadStickersForPreview`: the publishing back-fill, gated by the system user token
    * instead of the workspace credentials, with the typebot id standing in for a missing
    * public id. */
  function PreviewStickerWrite(env: PreviewEnv, t: PreviewTypebot, upload: string -> Option<string>)
    : (r: Option<seq<PublishTypebot.Group>>)
    requires t.id != ""
    ensures r.Some? <==> Truthy(env.systemUserToken) && PublishTypebot.HasStickerUpload(t.groups, upload)
    ensures r.Some? ==> r.value == PublishTypebot.BackfillGroups(t.groups, upload)
  {
    PublishTypebot.StickerWrite(Truthy(env.systemUserToken), Some(OrElse(t.publicId, t.id)), t.groups, upload)
  }

  /** The preview's nested loops are those of publishing. */
  method UploadStickersForPreview(env: PreviewEnv, t: PreviewTypebot, upload: string -> Option<string>)
    returns (write: Option<seq<PublishTypebot.Group>>)
    requires t.id != ""
    ensures write == PreviewStickerWrite(env, t, upload)
  {
    if !Truthy(env.systemUserToken) {
      return None;
    }
    var groups, hasChanges := PublishTypebot.BackfillStickers(t.groups, upload);
    if hasChanges {
      write := Some(groups);
    } else {
      write := None;
    }
  }

  /** What the preview hands to the save: the reply's input, no client-side actions and no
    * `isWaitingForExternalEvent`, which the preview never passes on. */
  function PreviewSaveReply(reply: SaveState.Reply): (r: SaveState.Reply)
    ensures r.hasInput == reply.hasInput
    ensures r.clientSideActions == Some([]) && r.isWaitingForExternalEvent.None?
  {
    reply.(clientSideActions := Some([]), isWaitingForExternalEvent := None)
  }

  /** `startWhatsAppPreview`. `to` is the number as given (at least one character);
    * `sessionUpdatedAt` is when the preview session was last updated, if it exists;
    * `reply` and `state` are what the started session answers. */
  function StartPreview(to: string, env: PreviewEnv, found: Option<PreviewTypebot>, readForbidden: bool,
                        sessionUpdatedAt: Option<int>, now: int, upload: string -> Option<string>,
                        state: SaveState.SessionState, reply: SaveState.Reply): (r: PreviewOutcome)
    requires |to| >= 1
    ensures !EnvConfigured(env) ==> r == PreviewOutcome(PublishTypebot.Failure(BadRequest), [])
    ensures (EnvConfigured(env) && (found.None? || found.value.id == "" || readForbidden))
              ==> r == PreviewOutcome(PublishTypebot.Failure(NotFound), [])
    ensures r.result.Success? <==> EnvConfigured(env) && found.Some? && found.value.id != "" && !readForbidden
  {
    var number := NormalizeRecipient(to);
    if !EnvConfigured(env) then PreviewOutcome(PublishTypebot.Failure(BadRequest), [])
    else if found.None? || found.value.id == "" || readForbidden then PreviewOutcome(PublishTypebot.Failure(NotFound), [])
    else
      var t := found.value;
      var stickers := PreviewStickerWrite(env, t, upload);
      var stickerEffects := if stickers.Some? then [SaveStickerIds(stickers.value)] else [];
      var sessionId := PreviewSessionId(number);
      var direct := CanSendDirectMessages(sessionUpdatedAt, now);
      var start := StartSession(sessionId, !direct);
      if direct then
        var saved := SaveState.SaveStatePlan(SaveState.SessionId(SaveState.Existing, sessionId), state,
                                             PreviewSaveReply(reply), sessionId);
        PreviewOutcome(PublishTypebot.Success("Sent direct WA message"),
                       stickerEffects + [start, SendReply(number), SaveSession(saved.writes)])
      else
        PreviewOutcome(PublishTypebot.Success("Sent WA template"),
                       stickerEffects + [start, RestartSession(sessionId),
                                         SendTemplate(number, env.templateName.value, env.templateLang)])
  }

  /** The session is registered only (no reply sent) exactly when the 24-hour window is
    * closed; the direct branch sends the reply and then saves the state by updating the
    * preview session, never marking it as replying; the other restarts it and sends the
    * template. */
  lemma PreviewBranches(to: string, env: PreviewEnv, t: PreviewTypebot, sessionUpdatedAt: Option<int>, now: int,
                        upload: string -> Option<string>, state: SaveState.SessionState, reply: SaveState.Reply)
    requires |to| >= 1 && EnvConfigured(env) && t.id != ""
    ensures var r := StartPreview(to, env, Some(t), false, sessionUpdatedAt, now, upload, state, reply);
            var id := PreviewSessionId(NormalizeRecipient(to));
            var direct := CanSendDirectMessages(sessionUpdatedAt, now);
            var e := r.effects;
            && |e| >= 3
            && e[|e| - 3] == StartSession(id, !direct)
            && (direct ==>
                  && r.result == PublishTypebot.Success("Sent direct WA message")
                  && e[|e| - 2] == SendReply(NormalizeRecipient(to))
                  && e[|e| - 1].SaveSession? && |e[|e| - 1].writes| == 1 && e[|e| - 1].writes[0].Transaction?
                  && e[|e| - 1].writes[0].queries[0] == SaveState.UpdateSession(id, state, false))
            && (!direct ==>
                  && r.result == PublishTypebot.Success("Sent WA template")
                  && e[|e| - 2] == RestartSession(id)
                  && e[|e| - 1] == SendTemplate(NormalizeRecipient(to), env.templateName.value, env.templateLang))
  {
    var id := PreviewSessionId(NormalizeRecipient(to));
    SaveState.ExistingSessionIsUpdatedNotDeleted(id, state, PreviewSaveReply(reply), id);
  }

  /** The webhook resumes the preview session for the normalised number: the preview id is
    * the one the webhook computes for that sender when the preview session holds state. */
  lemma PreviewSessionIsResumedByWebhook(to: string, phoneNumberId: string)
    ensures Webhook.SessionId(phoneNumberId, NormalizeRecipient(to), true) == PreviewSessionId(NormalizeRecipient(to))
  {
  }

  /** The recipient as typed with spaces, "+" and "-" reaches the same session as the bare
    * digits. */
  lemma FormattedNumberSharesTheSession(digits: string, formatted: string)
    requires AllDigits(digits) && RemoveAll(formatted, IsDropped) == digits
    ensures PreviewSessionId(NormalizeRecipient(formatted)) == PreviewSessionId(NormalizeRecipient(digits))
  {
    NormalizeRecipientDropsExactly(formatted);
    DigitsAreKept(digits);
  }
}
