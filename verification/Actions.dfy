/** The closed set of action types and the properties every verb and the drainer read. */
module Actions {
  datatype Option<+T> = None | Some(value: T)

  datatype ActionType =
    | ReadSql | AskRouter | GenerateDraft | SendChatNotification | WriteDerivedField
    | MarkRead | MarkUnread | AddLocalCategory | RemoveLocalCategory | MoveToTriageFolder
    | Archive | MarkJunk | MoveToUserFolder | Unsubscribe | MoveToInbox
    | Delete | SendReply | SendNewEmail | SendForward | ReplyToInactiveThread
    | ModifyInboxRule | ModifyOutlookFilter | TouchDelegatedMailbox

  function TierFor(a: ActionType): nat {
    match a
    case ReadSql | AskRouter | GenerateDraft | SendChatNotification | WriteDerivedField => 0
    case MarkRead | MarkUnread | AddLocalCategory | RemoveLocalCategory | MoveToTriageFolder => 1
    case Archive | MarkJunk | MoveToUserFolder | Unsubscribe | MoveToInbox => 2
    case _ => 3
  }

  predicate IsSendFamily(a: ActionType) {
    a.SendReply? || a.SendNewEmail? || a.SendForward? || a.ReplyToInactiveThread?
  }

  predicate IsMoveFamily(a: ActionType) {
    a.MoveToTriageFolder? || a.Archive? || a.MarkJunk? || a.MoveToUserFolder? || a.MoveToInbox?
  }

  predicate RequiresGrant(a: ActionType) { TierFor(a) >= 2 }

  predicate IsEmailLess(a: ActionType) {
    a.ModifyInboxRule? || a.ModifyOutlookFilter? || a.TouchDelegatedMailbox? || a.SendNewEmail?
  }

  /** Every Tier-1 type except the move, which is undone from its recorded pre-state. */
  function StaticInverse(a: ActionType): Option<ActionType> {
    match a
    case MarkRead => Some(MarkUnread)
    case MarkUnread => Some(MarkRead)
    case AddLocalCategory => Some(RemoveLocalCategory)
    case RemoveLocalCategory => Some(AddLocalCategory)
    case _ => None
  }

  /** Marking against unmarking, adding against removing. */
  predicate IsOpposite(a: ActionType, b: ActionType) {
    || (a.MarkRead? && b.MarkUnread?) || (a.MarkUnread? && b.MarkRead?)
    || (a.AddLocalCategory? && b.RemoveLocalCategory?) || (a.RemoveLocalCategory? && b.AddLocalCategory?)
  }

  /** The inverse is the opposite, never the action itself, and is undone by the action; there is one for
      every Tier-1 type but the move. */
  lemma InverseIsOpposite(a: ActionType)
    ensures forall b :: StaticInverse(a) == Some(b) <==> IsOpposite(a, b)
    ensures StaticInverse(a).Some? ==> StaticInverse(a).value != a && StaticInverse(StaticInverse(a).value) == Some(a)
    ensures StaticInverse(a).Some? <==> TierFor(a) == 1 && !IsMoveFamily(a)
  {
  }

  /** The lists agree: sends are Tier 3, moves Tier 1 or 2, only Tier 3 may name no email, and what needs no
      grant can be undone or is not queued at all. */
  lemma ListsAgree(a: ActionType)
    ensures IsSendFamily(a) ==> TierFor(a) == 3 && !IsMoveFamily(a)
    ensures IsMoveFamily(a) ==> 1 <= TierFor(a) <= 2 && NeedsMessageId(a)
    ensures IsEmailLess(a) ==> TierFor(a) == 3 && !NeedsMessageId(a)
    ensures TierFor(a) == 1 <==> StaticInverse(a).Some? || a.MoveToTriageFolder?
    ensures TierFor(a) == 2 <==> a.Unsubscribe? || (IsMoveFamily(a) && !a.MoveToTriageFolder?)
    ensures RequiresGrant(a) <==> TierFor(a) in {2, 3}
    ensures IsLocalOnly(a) ==> StaticInverse(a).Some? && !NeedsMessageId(a)
  {
  }

  datatype Key = TierKey | RevertOf | DestinationFolder | UnsubscribeUrl | Upn | Other(name: string)
  datatype Json = Null | Text(text: string) | Number(number: int)
  type Payload = map<Key, Json>

  /** The columns of an action row that no statement ever updates. */
  datatype Spec = Spec(
    emailId: Option<string>, action: ActionType, tier: nat, payload: Payload,
    proposedAt: int, marker: Option<string>)

  predicate HasRevertMarker(p: Payload) { RevertOf in p && p[RevertOf] != Null }

  predicate IsRevertRow(s: Spec) { IsMoveFamily(s.action) && HasRevertMarker(s.payload) }

  /** The folder a move asks Graph for; a destination that is not text names no folder. */
  function Destination(s: Spec): Option<string> {
    if DestinationFolder in s.payload && s.payload[DestinationFolder] != Null then
      match s.payload[DestinationFolder]
      case Text(folder) => Some(folder)
      case _ => None
    else Some(match s.action case Archive => "archive" case MarkJunk => "junkemail" case _ => "inbox")
  }

  /** A named folder is where the message goes; otherwise it goes to the archive, to junk or to the inbox. */
  lemma DestinationIs(s: Spec)
    ensures DestinationFolder in s.payload && s.payload[DestinationFolder].Text? ==>
              Destination(s) == Some(s.payload[DestinationFolder].text)
    ensures DestinationFolder !in s.payload ==>
              && (s.action.Archive? <==> Destination(s) == Some("archive"))
              && (s.action.MarkJunk? <==> Destination(s) == Some("junkemail"))
              && (!s.action.Archive? && !s.action.MarkJunk? <==> Destination(s) == Some("inbox"))
  {
  }

  predicate IsLocalOnly(a: ActionType) { a.AddLocalCategory? || a.RemoveLocalCategory? }

  /** The Graph path template of the type carries "{id}". */
  predicate NeedsMessageId(a: ActionType) {
    a.MarkRead? || a.MarkUnread? || IsMoveFamily(a) || a.Delete? ||
    a.SendReply? || a.SendForward? || a.ReplyToInactiveThread?
  }

  predicate HasText(p: Payload, k: Key) { k in p && p[k].Text? && p[k].text != "" }

  /** The adapter reaches Graph: it has an endpoint for the type and the row names its target. */
  predicate IsDispatchable(s: Spec) {
    && TierFor(s.action) > 0
    && (s.action.Unsubscribe? ==> HasText(s.payload, UnsubscribeUrl))
    && (s.action.TouchDelegatedMailbox? ==> HasText(s.payload, Upn))
    && (NeedsMessageId(s.action) ==> s.emailId.Some?)
  }
}
