/**
 * The groups page: the discover list, the private-group join dialog and the
 * accept/reject bookkeeping of invitations.
 */
module Groups {
  import opened Optional
  import opened Lists
  import opened Strings
  import opened Server

  /** A group; its id may be missing from what the server sent. */
  datatype Group = Group(id: Option<string>, name: string, isPrivate: bool)

  /** The page's state. */
  datatype GroupsPage = GroupsPage(
    allGroups: seq<Group>,
    myGroups: seq<Group>,
    invites: seq<Group>,
    showJoinDialog: bool,
    selectedGroup: Option<Group>,
    inviteCode: string,
    joinError: string,
    processingInvite: Option<string>)

  const InitialPage := GroupsPage([], [], [], false, None, "", "", None)

  /**
   * `myGroupIds`: the ids of the user's groups. The source passes both these
   * ids and each candidate's id through `?.toString() || _id`, which leaves a
   * string id or a missing one as it is, so the ids are compared as given.
   */
  function GroupIds(groups: seq<Group>): (ids: seq<Option<string>>)
    ensures |ids| == |groups|
    ensures forall i :: 0 <= i < |groups| ==> ids[i] == groups[i].id
  {
    seq(|groups|, i requires 0 <= i < |groups| => groups[i].id)
  }

  /** `discoverGroups`: every group whose id is not among the ids of the user's groups, in the original order. */
  function DiscoverGroups(allGroups: seq<Group>, myGroups: seq<Group>): (r: seq<Group>)
    ensures forall g :: g in r <==> g in allGroups && forall m :: m in myGroups ==> m.id != g.id
    ensures |r| <= |allGroups|
  {
    var mine := GroupIds(myGroups);
    assert forall g: Group :: g.id in mine <==> exists m :: m in myGroups && m.id == g.id by {
      forall g: Group ensures g.id in mine <==> exists m :: m in myGroups && m.id == g.id {
        if g.id in mine {
          var i :| 0 <= i < |mine| && mine[i] == g.id;
          assert myGroups[i] in myGroups;
        }
      }
    }
    Filter(allGroups, (g: Group) => g.id !in mine)
  }

  /** A user in no group is offered every group. */
  lemma {:induction false} DiscoverAllWhenNoGroups(allGroups: seq<Group>)
    ensures DiscoverGroups(allGroups, []) == allGroups
  {
    FilterAllKept(allGroups, (g: Group) => g.id !in GroupIds([]));
  }

  /** The discover lists of two batches of groups are the discover lists of each, one after the other. */
  lemma DiscoverKeepsOrder(first: seq<Group>, second: seq<Group>, myGroups: seq<Group>)
    ensures DiscoverGroups(first + second, myGroups) == DiscoverGroups(first, myGroups) + DiscoverGroups(second, myGroups)
  {
    FilterAppend(first, second, (g: Group) => g.id !in GroupIds(myGroups));
  }

  /** A page change plus whether the user was sent to the login page instead. */
  datatype Step = Step(page: GroupsPage, toLogin: bool)

  /**
   * `handleJoinPrivateGroup`: signed in, the dialog opens for that group with
   * the code and the error reset; signed out, nothing changes and the user
   * is sent to log in.
   */
  function JoinPrivateGroup(page: GroupsPage, isAuthenticated: bool, group: Group): (r: Step)
    ensures !isAuthenticated ==> r.toLogin && r.page == page
    ensures isAuthenticated ==> !r.toLogin && r.page.showJoinDialog && r.page.selectedGroup == Some(group)
    ensures isAuthenticated ==> r.page.inviteCode == "" && r.page.joinError == ""
    ensures r.page.allGroups == page.allGroups && r.page.myGroups == page.myGroups
    ensures r.page.invites == page.invites && r.page.processingInvite == page.processingInvite
  {
    if !isAuthenticated then Step(page, true)
    else Step(page.(selectedGroup := Some(group), inviteCode := "", joinError := "", showJoinDialog := true), false)
  }

  /** The join request: the group's id and the trimmed code. */
  datatype JoinRequest = JoinRequest(groupId: Option<string>, inviteCode: string)

  /** The refreshed lists fetched after a successful join. */
  datatype Refreshed = Refreshed(allGroups: seq<Group>, myGroups: seq<Group>)

  const EnterCodeMessage := "Please enter the invite code"
  const InvalidCodeMessage := "Invalid invite code. Please try again."

  /**
   * `handleSubmitJoin`. `reply` is the outcome of the join together with the
   * refresh after it; without a selected group, reading its id throws
   * inside the `try` and the fallback message shows.
   */
  function SubmitJoin(page: GroupsPage, reply: Reply<Refreshed>): (r: (GroupsPage, Option<JoinRequest>))
    ensures IsBlank(page.inviteCode) ==> r.1 == None && r.0 == page.(joinError := EnterCodeMessage)
    ensures !IsBlank(page.inviteCode) && page.selectedGroup == None ==>
      r.1 == None && r.0 == page.(joinError := InvalidCodeMessage)
    ensures !IsBlank(page.inviteCode) && page.selectedGroup.Some? ==>
      r.1 == Some(JoinRequest(page.selectedGroup.value.id, Trim(page.inviteCode)))
    ensures !IsBlank(page.inviteCode) && page.selectedGroup.Some? && reply.Ok? ==>
      r.0 == page.(allGroups := reply.data.allGroups, myGroups := reply.data.myGroups,
                   showJoinDialog := false, selectedGroup := None, inviteCode := "", joinError := "")
    ensures !IsBlank(page.inviteCode) && page.selectedGroup.Some? && reply.Failed? ==>
      r.0 == page.(joinError := OrElse(reply.message, InvalidCodeMessage))
  {
    if |Trim(page.inviteCode)| == 0 then (page.(joinError := EnterCodeMessage), None)
    else
      var cleared := page.(joinError := "");
      if cleared.selectedGroup == None then (cleared.(joinError := InvalidCodeMessage), None)
      else
        var request := JoinRequest(cleared.selectedGroup.value.id, Trim(cleared.inviteCode));
        match reply
        case Ok(lists) =>
          (cleared.(allGroups := lists.allGroups, myGroups := lists.myGroups,
                    showJoinDialog := false, selectedGroup := None, inviteCode := ""), Some(request))
        case Failed(message) =>
          (cleared.(joinError := OrElse(message, InvalidCodeMessage)), Some(request))
  }

  /** The code sent never starts or ends with white space and is never empty. */
  lemma SentCodeIsTrimmed(page: GroupsPage, reply: Reply<Refreshed>)
    requires !IsBlank(page.inviteCode) && page.selectedGroup.Some?
    ensures SubmitJoin(page, reply).1.Some?
    ensures IsTrimmed(SubmitJoin(page, reply).1.value.inviteCode)
    ensures SubmitJoin(page, reply).1.value.inviteCode != ""
  {
  }

  /** The lists fetched after accepting an invitation. */
  datatype AfterAccept = AfterAccept(allGroups: seq<Group>, myGroups: seq<Group>, invites: Option<seq<Group>>)

  /** The invitation being handled while its request is out, and the page once it is done. */
  datatype InviteSteps = InviteSteps(during: GroupsPage, after: GroupsPage)

  /**
   * `handleAcceptInvite`: the invitation is marked as being processed while
   * the request is out and unmarked afterwards, whatever the outcome; a
   * success brings in the refreshed lists, invitations defaulting to none.
   */
  function AcceptInvite(page: GroupsPage, groupId: string, reply: Reply<AfterAccept>): (r: InviteSteps)
    ensures r.during == page.(processingInvite := Some(groupId))
    ensures r.after.processingInvite == None
    ensures reply.Failed? ==> r.after == page.(processingInvite := None)
    ensures reply.Ok? ==> r.after == page.(allGroups := reply.data.allGroups, myGroups := reply.data.myGroups,
                                         invites := reply.data.invites.GetOr([]), processingInvite := None)
  {
    var during := page.(processingInvite := Some(groupId));
    match reply
    case Ok(lists) =>
      InviteSteps(during, during.(allGroups := lists.allGroups, myGroups := lists.myGroups,
                                  invites := lists.invites.GetOr([]), processingInvite := None))
    case Failed(_) => InviteSteps(during, during.(processingInvite := None))
  }

  /** `handleRejectInvite`: the same marking; a success only refreshes the invitations. */
  function RejectInvite(page: GroupsPage, groupId: string, reply: Reply<Option<seq<Group>>>): (r: InviteSteps)
    ensures r.during == page.(processingInvite := Some(groupId))
    ensures r.after.processingInvite == None
    ensures reply.Failed? ==> r.after == page.(processingInvite := None)
    ensures reply.Ok? ==> r.after == page.(invites := reply.data.GetOr([]), processingInvite := None)
  {
    var during := page.(processingInvite := Some(groupId));
    match reply
    case Ok(invites) => InviteSteps(during, during.(invites := invites.GetOr([]), processingInvite := None))
    case Failed(_) => InviteSteps(during, during.(processingInvite := None))
  }

  /**
   * Handling an invitation never leaves one marked and never touches the
   * join dialog, so the page returns to its idle state.
   */
  lemma InviteHandlingReturnsToIdle(page: GroupsPage, groupId: string, accept: Reply<AfterAccept>, reject: Reply<Option<seq<Group>>>)
    requires page.processingInvite == None
    ensures AcceptInvite(page, groupId, accept).after.(allGroups := page.allGroups, myGroups := page.myGroups, invites := page.invites) == page
    ensures RejectInvite(page, groupId, reject).after.(invites := page.invites) == page
  {
  }
}
