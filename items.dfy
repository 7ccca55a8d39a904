// The entries of the meeting minutes: each records its kind, who said it,
// its text, the transcript line number it came from and when.
module Items {
  import opened Clock

  datatype ItemType =
    | TopicItem | SubtopicItem | ActionItem | InfoItem | IdeaItem | HelpItem | LinkItem
    | DoneItem | AgreedItem | AcceptedItem | RejectedItem | VoteItem

  /** The `itemtype` string the writers and `#undo` print. */
  function ItemTypeName(t: ItemType): string {
    match t
    case TopicItem => "TOPIC"
    case SubtopicItem => "SUBTOPIC"
    case ActionItem => "ACTION"
    case InfoItem => "INFO"
    case IdeaItem => "IDEA"
    case HelpItem => "HELP"
    case LinkItem => "LINK"
    case DoneItem => "DONE"
    case AgreedItem => "AGREED"
    case AcceptedItem => "ACCEPTED"
    case RejectedItem => "REJECTED"
    case VoteItem => "VOTE"
  }

  datatype Item = Item(itemtype: ItemType, nick: string, line: string, linenum: nat, time: Time)
}
