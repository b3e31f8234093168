/** Resolution of the target group from the client's chat list
    (`findTargetGroup` of the bot). */
module Chats {
  import opened Wrappers
  import opened Errors

  /** The display name of the only group polls are delivered to. */
  const TargetGroupName: string := "C-502 Cook Talks"

  /** One entry of the chat list. `id` is the client's opaque chat identifier,
      which tells apart chats that share a name. */
  datatype Chat = Chat(id: nat, isGroup: bool, name: string)

  /** The lookup predicate: a group chat whose name is exactly `target`,
      compared character by character (so case and spacing matter). */
  predicate IsTarget(c: Chat, target: string) {
    c.isGroup && c.name == target
  }

  /** Index of the first chat, in list order, that is the target group. */
  function FirstMatch(chats: seq<Chat>, target: string): (r: Option<nat>)
    ensures r.Some? ==> r.value < |chats| && IsTarget(chats[r.value], target)
    ensures r.Some? ==> forall j :: 0 <= j < r.value ==> !IsTarget(chats[j], target)
    ensures r.None? <==> forall j :: 0 <= j < |chats| ==> !IsTarget(chats[j], target)
  {
    if |chats| == 0 then None
    else if IsTarget(chats[0], target) then Some(0)
    else
      match FirstMatch(chats[1..], target)
      case None => None
      case Some(i) => Some(i + 1)
  }

  /** `findTargetGroup`: `fetched` is what the chat-list request produced
      (`None` when it rejected). The first target group in list order is
      returned; with none, the lookup fails naming the target. */
  function FindTargetGroup(fetched: Option<seq<Chat>>, target: string): (r: Result<Chat, Error>)
    ensures fetched.None? ==> r == Failure(ChatsUnavailable)
    ensures r.Success? <==>
              fetched.Some? && exists i :: 0 <= i < |fetched.value| && IsTarget(fetched.value[i], target)
    ensures r.Success? ==>
              exists i :: 0 <= i < |fetched.value| && fetched.value[i] == r.value
                          && IsTarget(r.value, target)
                          && forall j :: 0 <= j < i ==> !IsTarget(fetched.value[j], target)
    ensures fetched.Some? && r.Failure? ==> r.error == GroupNotFound(target)
  {
    match fetched
    case None => Failure(ChatsUnavailable)
    case Some(chats) =>
      match FirstMatch(chats, target)
      case None => Failure(GroupNotFound(target))
      case Some(i) => Success(chats[i])
  }

  /** The search is left to right: in a list split in two, a match in the first
      part wins, and otherwise the answer is the second part's, shifted. */
  lemma {:induction false} FirstMatchAppend(a: seq<Chat>, b: seq<Chat>, target: string)
    ensures FirstMatch(a + b, target) ==
              match FirstMatch(a, target)
              case Some(i) => Some(i)
              case None =>
                match FirstMatch(b, target)
                case None => None
                case Some(k) => Some(|a| + k)
  {
    if |a| == 0 {
      assert a + b == b;
    } else {
      assert (a + b)[0] == a[0];
      assert (a + b)[1..] == a[1..] + b;
      FirstMatchAppend(a[1..], b, target);
    }
  }

  /** Adding chats after the list never changes which group is found when the
      list already holds one, and a later duplicate of the name is ignored. */
  lemma LaterChatsDoNotMatter(chats: seq<Chat>, more: seq<Chat>, target: string)
    requires FindTargetGroup(Some(chats), target).Success?
    ensures FindTargetGroup(Some(chats + more), target) == FindTargetGroup(Some(chats), target)
  {
    FirstMatchAppend(chats, more, target);
    var i := FirstMatch(chats, target).value;
    assert (chats + more)[i] == chats[i];
  }

  /** Names differing from the target only in case or spacing, and a
      non-group chat with the exact name, are all non-matches. */
  lemma NearMissesAreNotFound()
    ensures FindTargetGroup(Some([Chat(1, true, "c-502 cook talks"),
                                  Chat(2, true, "C-502  Cook Talks"),
                                  Chat(3, true, "C-502 Cook Talks "),
                                  Chat(4, false, "C-502 Cook Talks")]), TargetGroupName)
            == Failure(GroupNotFound(TargetGroupName))
  {
  }
}
