/**
 * A group's page: who is a member or the creator, joining, posting and
 * replying, the e-mail invitation check, and the per-post expanded-replies
 * flags and reply target.
 */
module GroupDetails {
  import opened Optional
  import opened Strings
  import opened Server

  datatype Member = Member(id: Option<string>)

  /** The group fields the checks read; `members` and `creator` may be absent. */
  datatype GroupInfo = GroupInfo(isPrivate: bool, members: Option<seq<Member>>, creator: Option<Member>)

  /** `group?.members?.some(m => m._id === user?._id)`: absent group or members read as false. */
  predicate IsMember(group: Option<GroupInfo>, userId: Option<string>) {
    group.Some? && group.value.members.Some? &&
    exists i :: 0 <= i < |group.value.members.value| && group.value.members.value[i].id == userId
  }

  /** `group?.creator?._id`, absent along the way as `None`. */
  function CreatorId(group: Option<GroupInfo>): Option<string> {
    if group.Some? && group.value.creator.Some? then group.value.creator.value.id else None
  }

  /** `group?.creator?._id === user?._id`. */
  predicate IsCreator(group: Option<GroupInfo>, userId: Option<string>) {
    CreatorId(group) == userId
  }

  /** A signed-in user is a member iff one of the listed members has their id. */
  lemma MemberIffListed(group: GroupInfo, userId: string)
    requires group.members.Some?
    ensures IsMember(Some(group), Some(userId)) <==> exists m :: m in group.members.value && m.id == Some(userId)
  {
    if exists m :: m in group.members.value && m.id == Some(userId) {
      var m :| m in group.members.value && m.id == Some(userId);
      var i :| 0 <= i < |group.members.value| && group.members.value[i] == m;
    }
  }

  /**
   * Both sides of the creator test are `undefined` when the group has no
   * creator and nobody is signed in, so the creator controls show.
   */
  lemma CreatorWhenBothAbsent(group: Option<GroupInfo>)
    requires group == None || group.value.creator == None
    ensures IsCreator(group, None)
  {
  }

  /** The join request body: an invite code only for a private group. */
  datatype JoinBody = JoinBody(inviteCode: Option<string>)

  /** ECMAScript `\s` or '@': what the pattern's `[^\s@]` refuses. */
  predicate Special(c: char) {
    IsSpace(c) || c == '@'
  }

  /** Positions `lo` up to `hi` hold neither white space nor '@'. */
  predicate PlainRange(s: string, lo: int, hi: int)
    requires 0 <= lo <= hi <= |s|
  {
    forall i :: lo <= i < hi ==> !Special(s[i])
  }

  /** `/^[^\s@]+@[^\s@]+\.[^\s@]+$/.test(s)`: some '@' and a later '.' split `s` into three non-empty plain parts. */
  predicate EmailPatternMatches(s: string) {
    exists at, dot :: 0 < at && at + 1 < dot && dot + 1 < |s| && s[at] == '@' && s[dot] == '.' &&
      PlainRange(s, 0, at) && PlainRange(s, at + 1, dot) && PlainRange(s, dot + 1, |s|)
  }

  /** The plain-words reading of the pattern. */
  predicate EmailShape(s: string) {
    && (forall i :: 0 <= i < |s| ==> !IsSpace(s[i]))
    && exists at :: (
         && 0 < at < |s| && s[at] == '@'
         && (forall i :: 0 <= i < |s| && i != at ==> s[i] != '@')
         && exists dot :: at + 1 < dot < |s| - 1 && s[dot] == '.')
  }

  /**
   * The pattern accepts exactly the strings with no white space and one
   * '@', something before it, and a '.' in the part after it that is
   * neither that part's first nor its last character.
   */
  lemma EmailPatternMeaning(s: string)
    ensures EmailPatternMatches(s) <==> EmailShape(s)
  {
    if EmailPatternMatches(s) {
      var at, dot :| 0 < at && at + 1 < dot && dot + 1 < |s| && s[at] == '@' && s[dot] == '.' &&
        PlainRange(s, 0, at) && PlainRange(s, at + 1, dot) && PlainRange(s, dot + 1, |s|);
      forall i | 0 <= i < |s| ensures !IsSpace(s[i]) && (i != at ==> s[i] != '@') {
        if i < at {
        } else if i == at {
        } else if i < dot {
        } else if i == dot {
        } else {
        }
      }
    }
    if EmailShape(s) {
      var at :| 0 < at < |s| && s[at] == '@' && (forall i :: 0 <= i < |s| && i != at ==> s[i] != '@')
        && exists dot :: at + 1 < dot < |s| - 1 && s[dot] == '.';
      var dot :| at + 1 < dot < |s| - 1 && s[dot] == '.';
      assert PlainRange(s, 0, at) && PlainRange(s, at + 1, dot) && PlainRange(s, dot + 1, |s|);
    }
  }

  /** An address typed with a leading or trailing space is refused by the pattern, even though the send step would trim it. */
  lemma PaddedEmailRefused(s: string)
    requires |s| > 0 && (IsSpace(s[0]) || IsSpace(s[|s| - 1]))
    ensures !EmailPatternMatches(s)
  {
    EmailPatternMeaning(s);
  }

  /** What the pattern accepts is already trimmed, so the trimmed address sent is the one checked. */
  lemma AcceptedEmailIsTrimmed(s: string)
    requires EmailPatternMatches(s)
    ensures Trim(s) == s
  {
    EmailPatternMeaning(s);
    TrimOfTrimmed(s);
  }

  const NoEmailMessage := "Please enter an email address"
  const BadEmailMessage := "Please enter a valid email address"

  /** `handleSendEmailInvite`'s checks: blank first, then the pattern on the untrimmed input. */
  function EmailCheck(email: string): (r: Option<string>)
    ensures IsBlank(email) ==> r == Some(NoEmailMessage)
    ensures !IsBlank(email) && !EmailShape(email) ==> r == Some(BadEmailMessage)
    ensures r == None <==> EmailShape(email)
  {
    EmailPatternMeaning(email);
    if |Trim(email)| == 0 then Some(NoEmailMessage)
    else if !EmailPatternMatches(email) then Some(BadEmailMessage)
    else
      assert !IsBlank(email);
      None
  }

  /** Whether `postId`'s replies are shown; a post never toggled reads as hidden. */
  function Expanded(flags: map<string, bool>, postId: string): bool {
    postId in flags && flags[postId]
  }

  /** `{ ...prev, [postId]: !prev[postId] }`. */
  function Toggled(flags: map<string, bool>, postId: string): (r: map<string, bool>)
    ensures Expanded(r, postId) == !Expanded(flags, postId)
    ensures forall p :: p != postId ==> (p in r <==> p in flags) && (p in r ==> r[p] == flags[p])
  {
    flags[postId := !Expanded(flags, postId)]
  }

  /** Toggling one post twice shows every post as before. */
  lemma ToggleTwice(flags: map<string, bool>, postId: string, p: string)
    ensures Expanded(Toggled(Toggled(flags, postId), postId), p) == Expanded(flags, p)
  {
  }

  /** The Reply button: pressing it on the post being answered closes the box, on any other post opens it there. */
  function ReplyTarget(replyingTo: Option<string>, postId: string): (r: Option<string>)
    ensures r == None <==> replyingTo == Some(postId)
    ensures r != None ==> r == Some(postId)
  {
    if replyingTo == Some(postId) then None else Some(postId)
  }

  lemma ReplyButtonTwice(replyingTo: Option<string>, postId: string)
    requires replyingTo != Some(postId)
    ensures ReplyTarget(ReplyTarget(replyingTo, postId), postId) == None
  {
  }

  /** What `handleReply` leaves behind: the text sent, then the reply box, reply target, shown replies and error. */
  datatype ReplyOutcome = ReplyOutcome(
    sent: Option<string>, replyContent: string, replyingTo: Option<string>,
    expandedReplies: map<string, bool>, error: string)

  /**
   * The outcome of replying to `postId`: a blank reply sends nothing and
   * changes nothing; otherwise the trimmed text is sent, and an accepted
   * reply clears the box and the target and shows that post's replies (the
   * others keep their state), while a refused one keeps everything but the error.
   */
  function Replied(content: string, replyingTo: Option<string>, expanded: map<string, bool>, error: string,
                   postId: string, reply: Reply<()>): (r: ReplyOutcome)
    ensures r.sent.Some? <==> !IsBlank(content)
    ensures r.sent.Some? ==> r.sent.value == Trim(content) && IsTrimmed(r.sent.value) && r.sent.value != ""
    ensures r.sent.None? ==> r == ReplyOutcome(None, content, replyingTo, expanded, error)
    ensures r.sent.Some? && reply.Ok? ==>
      && r.replyContent == "" && r.replyingTo == None && r.error == error
      && Expanded(r.expandedReplies, postId)
      && forall p :: p != postId ==> Expanded(r.expandedReplies, p) == Expanded(expanded, p)
    ensures r.sent.Some? && reply.Failed? ==>
      && r.replyContent == content && r.replyingTo == replyingTo && r.expandedReplies == expanded
      && r.error == OrElse(reply.message, "Failed to reply")
  {
    var trimmed := Trim(content);
    if |trimmed| == 0 then ReplyOutcome(None, content, replyingTo, expanded, error)
    else if reply.Ok? then ReplyOutcome(Some(trimmed), "", None, expanded[postId := true], error)
    else ReplyOutcome(Some(trimmed), content, replyingTo, expanded, OrElse(reply.message, "Failed to reply"))
  }

  class GroupPage {
    var error: string
    var showInviteDialog: bool
    var inviteInput: string
    var newPost: string
    var emailToInvite: string
    var inviteError: string
    var inviteSuccess: string
    var replyingTo: Option<string>
    var replyContent: string
    var expandedReplies: map<string, bool>

    constructor ()
      ensures error == "" && !showInviteDialog && inviteInput == "" && newPost == ""
      ensures emailToInvite == "" && inviteError == "" && inviteSuccess == ""
      ensures replyingTo == None && replyContent == "" && expandedReplies == map[]
    {
      error := "";
      showInviteDialog := false;
      inviteInput := "";
      newPost := "";
      emailToInvite := "";
      inviteError := "";
      inviteSuccess := "";
      replyingTo := None;
      replyContent := "";
      expandedReplies := map[];
    }

    /**
     * `handleJoin`: signed out, the user is sent to log in; a private group
     * with nothing typed opens the code dialog; otherwise the join is sent,
     * with the typed code only for a private group.
     */
    method HandleJoin(isAuthenticated: bool, group: GroupInfo, reply: Reply<()>) returns (toLogin: bool, sent: Option<JoinBody>)
      modifies this`showInviteDialog, this`inviteInput, this`error
      ensures toLogin <==> !isAuthenticated
      ensures !isAuthenticated ==> sent == None && unchanged(this)
      ensures isAuthenticated && group.isPrivate && old(inviteInput) == "" ==>
        sent == None && showInviteDialog && inviteInput == old(inviteInput) && error == old(error)
      ensures isAuthenticated && !(group.isPrivate && old(inviteInput) == "") ==>
        sent == Some(JoinBody(if group.isPrivate then Some(old(inviteInput)) else None))
      ensures isAuthenticated && !(group.isPrivate && old(inviteInput) == "") && reply.Ok? ==>
        !showInviteDialog && inviteInput == "" && error == old(error)
      ensures isAuthenticated && !(group.isPrivate && old(inviteInput) == "") && reply.Failed? ==>
        && showInviteDialog == old(showInviteDialog) && inviteInput == old(inviteInput)
        && error == OrElse(reply.message, "Failed to join group")
    {
      if !isAuthenticated {
        return true, None;
      }
      toLogin := false;
      if group.isPrivate && inviteInput == "" {
        showInviteDialog := true;
        return false, None;
      }
      sent := Some(JoinBody(if group.isPrivate then Some(inviteInput) else None));
      if reply.Ok? {
        showInviteDialog := false;
        inviteInput := "";
      } else {
        error := OrElse(reply.message, "Failed to join group");
      }
    }

    /** `handlePost`: blank content is ignored; otherwise it is sent as typed and cleared once accepted. */
    method HandlePost(reply: Reply<()>) returns (sent: Option<string>)
      modifies this`newPost, this`error
      ensures IsBlank(old(newPost)) ==> sent == None && unchanged(this)
      ensures !IsBlank(old(newPost)) ==> sent == Some(old(newPost))
      ensures !IsBlank(old(newPost)) && reply.Ok? ==> newPost == "" && error == old(error)
      ensures !IsBlank(old(newPost)) && reply.Failed? ==>
        newPost == old(newPost) && error == OrElse(reply.message, "Failed to post")
    {
      if |Trim(newPost)| == 0 {
        return None;
      }
      sent := Some(newPost);
      if reply.Ok? {
        newPost := "";
      } else {
        error := OrElse(reply.message, "Failed to post");
      }
    }

    /**
     * `handleSendEmailInvite`: the checks set their message and send nothing;
     * otherwise both messages are cleared and the trimmed address sent.
     */
    method HandleSendEmailInvite(reply: Reply<Option<string>>) returns (sent: Option<string>)
      modifies this`inviteError, this`inviteSuccess, this`emailToInvite
      ensures EmailCheck(old(emailToInvite)).Some? ==>
        && sent == None && inviteError == EmailCheck(old(emailToInvite)).value
        && inviteSuccess == old(inviteSuccess) && emailToInvite == old(emailToInvite)
      ensures EmailCheck(old(emailToInvite)) == None ==> sent == Some(old(emailToInvite))
      ensures EmailCheck(old(emailToInvite)) == None && reply.Ok? ==>
        inviteError == "" && inviteSuccess == OrElse(reply.data, "Invite sent successfully!") && emailToInvite == ""
      ensures EmailCheck(old(emailToInvite)) == None && reply.Failed? ==>
        && inviteError == OrElse(reply.message, "Failed to send invite") && inviteSuccess == ""
        && emailToInvite == old(emailToInvite)
    {
      var check := EmailCheck(emailToInvite);
      if check.Some? {
        inviteError := check.value;
        return None;
      }
      inviteError := "";
      inviteSuccess := "";
      EmailPatternMeaning(emailToInvite);
      AcceptedEmailIsTrimmed(emailToInvite);
      sent := Some(Trim(emailToInvite));
      if reply.Ok? {
        inviteSuccess := OrElse(reply.data, "Invite sent successfully!");
        emailToInvite := "";
      } else {
        inviteError := OrElse(reply.message, "Failed to send invite");
      }
    }

    /** `handleReply`: blank replies are ignored; an accepted one clears the box and shows that post's replies. */
    method HandleReply(postId: string, reply: Reply<()>) returns (sent: Option<string>)
      modifies this`replyContent, this`replyingTo, this`expandedReplies, this`error
      ensures ReplyOutcome(sent, replyContent, replyingTo, expandedReplies, error)
        == Replied(old(replyContent), old(replyingTo), old(expandedReplies), old(error), postId, reply)
    {
      var trimmed := Trim(replyContent);
      if |trimmed| == 0 {
        return None;
      }
      sent := Some(trimmed);
      if reply.Ok? {
        replyContent := "";
        replyingTo := None;
        expandedReplies := expandedReplies[postId := true];
      } else {
        error := OrElse(reply.message, "Failed to reply");
      }
    }

    /** `toggleReplies`. */
    method ToggleReplies(postId: string)
      modifies this`expandedReplies
      ensures expandedReplies == Toggled(old(expandedReplies), postId)
    {
      expandedReplies := expandedReplies[postId := !Expanded(expandedReplies, postId)];
    }

    /** The Reply button under a post. */
    method PressReply(postId: string)
      modifies this`replyingTo, this`replyContent
      ensures replyingTo == ReplyTarget(old(replyingTo), postId) && replyContent == ""
    {
      replyingTo := if replyingTo == Some(postId) then None else Some(postId);
      replyContent := "";
    }
  }
}
