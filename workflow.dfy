/**
 * The bot's reaction rules over an abstract tracker store. The tracker holds,
 * per issue or pull number, the ordered label list, the open/closed flag, the
 * changed-file list, the body and the comment texts; the git and comment
 * writes of the upload pipeline are kept as an ordered write log.
 */
module Workflow {
  import opened Wrappers
  import opened Strings
  import opened Catalog
  import opened LabelLists
  import opened Classification
  import opened References
  import opened UploadCommand

  /** An opaque git object id: the base branch's tip, or the object made by the k-th logged write. */
  datatype Sha = BaseTip(id: nat) | Written(index: nat)

  /** The writes of the upload pipeline, in the order the tracker receives them. */
  datatype Write =
    | TreeCreated(base: Sha, path: string, content: string)
    | CommitCreated(message: string, tree: Sha, parent: Sha)
    | RefCreated(ref: string, target: Sha)
    | PullCreated(number: nat, title: string, head: string, baseBranch: string, body: string)
    | CommentUpdated(id: nat, body: string)
    | CommentCreated(issue: nat, body: string)

  /** The fields of an `issue_comment.created` delivery the rules read. */
  datatype CommentEvent = CommentEvent(
    issue: nat,                // number of the issue or pull commented on
    title: string,             // its title
    issueOpen: bool,           // `issue.state === 'open'`
    onPull: bool,              // `issue.pull_request` is present
    assignee: Option<nat>,     // id of the assignee, if any
    issueLabels: seq<string>,  // the issue's labels as delivered
    commentId: nat,
    body: string,              // the comment text
    senderId: nat,
    senderLogin: string)

  /** What the upload handler did. */
  datatype UploadOutcome =
    | Declined             // a precondition failed: no write at all
    | BranchExists         // the ref already existed: the tree and commit remain
    | Uploaded(pull: nat)  // the whole pipeline ran; the new pull's number

  const BaseBranch: string := "master"

  function OpenIn(open: map<nat, bool>, n: nat): bool {
    n in open && open[n]
  }

  function FilesOf(files: map<nat, seq<string>>, n: nat): seq<string> {
    if n in files then files[n] else []
  }

  function BodyOf(bodies: map<nat, string>, n: nat): string {
    if n in bodies then bodies[n] else ""
  }

  function CommentsOf(comments: map<nat, seq<string>>, n: nat): seq<string> {
    if n in comments then comments[n] else []
  }

  /**
   * The task and channel label a review rule acts on, when every check passes
   * in the source's order: the pull is a subtitle upload, the text names a
   * task, that task is open and it has a channel label.
   */
  function ReviewTarget(labels: map<nat, seq<string>>, open: map<nat, bool>, files: map<nat, seq<string>>,
                        pull: nat, text: string): Option<(nat, string)>
  {
    if !IsSubtitleChange(FilesOf(files, pull)) then None
    else
      var r := ReferenceIn(text, labels);
      if !Truthy(r) || !OpenIn(open, r.value) then None
      else match FirstChannel(LabelsOf(labels, r.value))
        case None => None
        case Some(c) => Some((r.value, c))
  }

  /** The labels after a review rule acts: the task goes to `待审阅`, then the pull gets the channel. */
  function Reviewed(labels: map<nat, seq<string>>, task: nat, pull: nat, channel: string): map<nat, seq<string>> {
    var staged := labels[task := WithStatus(LabelsOf(labels, task), ToReview)];
    staged[pull := WithLabel(LabelsOf(staged, pull), channel)]
  }

  /** The review rule of the comment handler: the pull-opened rule, on open pulls only. */
  function CommentReviewTarget(ev: CommentEvent, labels: map<nat, seq<string>>, open: map<nat, bool>,
                               files: map<nat, seq<string>>): Option<(nat, string)>
  {
    if !ev.issueOpen || !ev.onPull then None else ReviewTarget(labels, open, files, ev.issue, ev.body)
  }

  /** The task the merge rule moves to `待上传`, when every check passes. */
  function MergeTarget(labels: map<nat, seq<string>>, open: map<nat, bool>, files: map<nat, seq<string>>,
                       bodies: map<nat, string>, comments: map<nat, seq<string>>, pull: nat, merged: bool): Option<nat>
  {
    if !merged || !IsSubtitleChange(FilesOf(files, pull)) then None
    else
      var r := HistoryReferenceAsWritten(BodyOf(bodies, pull), CommentsOf(comments, pull), labels);
      if !Truthy(r) || !OpenIn(open, r.value) || FirstChannel(LabelsOf(labels, r.value)).None? then None
      else Some(r.value)
  }

  /** The preconditions of the upload handler. */
  predicate UploadAccepted(ev: CommentEvent) {
    && !ev.onPull
    && ev.assignee.Some? && ev.senderId == ev.assignee.value
    && FirstChannel(ev.issueLabels).Some?
    && RequestBody(ev.body).Some? && RequestBody(ev.body).value != ""
  }

  /** The payload the upload handler commits. */
  function Payload(ev: CommentEvent): string
    requires UploadAccepted(ev)
  {
    RequestBody(ev.body).value
  }

  function UploadFile(ev: CommentEvent): string {
    UploadPath(FolderAsWritten(ev.issueLabels), ev.issue)
  }

  /** The ref the upload handler asks for. */
  function UploadRef(ev: CommentEvent, d: nat): string
    requires d <= 9
  {
    RefName(BranchName(ev.issue, d))
  }

  /** The tree and commit written before the ref is asked for; `at` is the length of the log before them. */
  function UploadObjects(ev: CommentEvent, tip: Sha, at: nat): seq<Write>
    requires UploadAccepted(ev)
  {
    [ TreeCreated(tip, UploadFile(ev), Payload(ev)),
      CommitCreated(CommitMessage(ev.issue, ev.senderLogin), Written(at), tip) ]
  }

  /** The writes after the tree and commit when the ref is new: ref, pull, comment edit, notice. */
  function UploadFinish(ev: CommentEvent, d: nat, at: nat, pull: nat): seq<Write>
    requires UploadAccepted(ev) && d <= 9
  {
    [ RefCreated(UploadRef(ev, d), Written(at + 1)),
      PullCreated(pull, ev.title, BranchName(ev.issue, d), BaseBranch, PullBody(ev.issue, ev.senderLogin)),
      CommentUpdated(ev.commentId, FoldedComment(Payload(ev))),
      CommentCreated(ev.issue, Notice(ev.senderLogin, pull)) ]
  }

  class Tracker {
    var labels: map<nat, seq<string>>
    var open: map<nat, bool>
    var files: map<nat, seq<string>>
    var bodies: map<nat, string>
    var comments: map<nat, seq<string>>
    var refs: set<string>
    var writes: seq<Write>
    var baseTip: Sha
    var nextNumber: nat

    constructor (tip: Sha, next: nat)
      ensures labels == map[] && open == map[] && files == map[] && bodies == map[] && comments == map[]
      ensures refs == {} && writes == [] && baseTip == tip && nextNumber == next
    {
      labels, open, files, bodies, comments := map[], map[], map[], map[], map[];
      refs, writes, baseTip, nextNumber := {}, [], tip, next;
    }

    // ----- label writes -----

    /** Removes one label from issue `n`; removing an absent label changes nothing. */
    method RemoveLabel(n: nat, name: string)
      modifies this`labels
      ensures labels == old(labels)[n := Without(LabelsOf(old(labels), n), name)]
    {
      labels := labels[n := Without(LabelsOf(labels, n), name)];
    }

    /** Adds labels to issue `n`; a label already present stays where it is. */
    method AddLabels(n: nat, names: seq<string>)
      modifies this`labels
      ensures labels == old(labels)[n := WithLabels(LabelsOf(old(labels), n), names)]
    {
      labels := labels[n := WithLabels(LabelsOf(labels, n), names)];
    }

    // ----- reads -----

    /** `getChannelLabel`: the first channel label in the issue's own label order. */
    method ChannelLabelOf(n: nat) returns (r: Option<string>)
      ensures r == FirstChannel(LabelsOf(labels, n))
    {
      var all := LabelsOf(labels, n);
      for i := 0 to |all|
        invariant forall j :: 0 <= j < i ==> !IsChannelLabel(all[j])
      {
        if IsChannelLabel(all[i]) {
          FirstChannelIsEarliest(all, i);
          return Some(all[i]);
        }
      }
      return None;
    }

    /** `isSubtitlePull`, on the pull's changed-file list. */
    method IsSubtitlePull(pull: nat) returns (b: bool)
      ensures b == IsSubtitleChange(FilesOf(files, pull))
    {
      var changed := FilesOf(files, pull);
      if |changed| != 1 {
        return false;
      }
      var filename := changed[0];
      if !StartsWith(filename, SubtitlesRoot) {
        return false;
      }
      return |Split(filename, '/')| == 3;
    }

    /** `getSubtitleIssueNumberFromComment`: the first `#N` whose issue has a channel label. */
    method ReferencedIssue(text: string) returns (r: Option<nat>)
      ensures r == ReferenceIn(text, labels)
    {
      var matches := Tokens(text);
      if |matches| == 0 {
        return None;
      }
      for i := 0 to |matches|
        invariant forall j :: 0 <= j < i ==> !HasChannel(labels, matches[j])
      {
        var channel := ChannelLabelOf(matches[i]);
        if channel.Some? {
          ReferenceInIsFirst(text, labels, i);
          return Some(matches[i]);
        }
      }
      ReferenceInSpec(text, labels);
      return None;
    }

    /**
     * `getSubtitleIssueNumber` as written: after the body, the comment loop
     * tests an un-awaited Promise, which is always truthy, so it returns on its
     * first iteration with what the first comment resolves to.
     */
    method HistoryIssue(pull: nat) returns (r: Option<nat>)
      ensures r == HistoryReferenceAsWritten(BodyOf(bodies, pull), CommentsOf(comments, pull), labels)
    {
      r := ReferencedIssue(BodyOf(bodies, pull));
      if Truthy(r) {
        return;
      }
      var all := CommentsOf(comments, pull);
      for i := 0 to |all|
        invariant i == 0
      {
        // The test is on the Promise itself, truthy whatever it resolves to;
        // returning it hands the caller the value it resolves to.
        var pending := true;
        r := ReferencedIssue(all[i]);
        if pending {
          return;
        }
      }
      return None;
    }

    /** `getSubtitleIssueNumber` with the comment scan awaited: the body, then each comment in order. */
    method HistoryIssueIntended(pull: nat) returns (r: Option<nat>)
      ensures r == HistoryReference(BodyOf(bodies, pull), CommentsOf(comments, pull), labels)
    {
      var body := BodyOf(bodies, pull);
      var all := CommentsOf(comments, pull);
      FirstTextReferenceCons(body, all, labels);
      r := ReferencedIssue(body);
      if Truthy(r) {
        return;
      }
      assert all[0..] == all;
      for i := 0 to |all|
        invariant FirstTextReference(all, labels) == FirstTextReference(all[i..], labels)
      {
        FirstTextReferenceStep(all, labels, i);
        r := ReferencedIssue(all[i]);
        if Truthy(r) {
          return;
        }
      }
      return None;
    }

    // ----- status transition -----

    /** `removeAllStatusLabels`: removes, one by one, every status label the issue carries. */
    method RemoveAllStatusLabels(n: nat)
      modifies this`labels
      ensures labels == old(labels)[n := NonStatus(LabelsOf(old(labels), n))]
    {
      var current := LabelsOf(labels, n);
      DropStatusInNone(current);
      labels := labels[n := current];
      for i := 0 to |current|
        invariant labels == old(labels)[n := DropStatusIn(current, current[..i])]
      {
        assert current[..i + 1] == current[..i] + [current[i]];
        DropStatusInStep(current, current[..i], current[i]);
        if IsStatusLabel(current[i]) {
          RemoveLabel(n, current[i]);
        }
      }
      assert current[..|current|] == current;
      DropStatusInAll(current, current);
    }

    /** `setStatusLabel`: every status label removed, then `status` added. */
    method SetStatusLabel(n: nat, status: string)
      requires IsStatusLabel(status)
      modifies this`labels
      ensures labels == old(labels)[n := WithStatus(LabelsOf(old(labels), n), status)]
    {
      RemoveAllStatusLabels(n);
      NonStatusMembers(LabelsOf(old(labels), n), status);
      AddLabels(n, [status]);
    }

    // ----- the five reaction rules -----

    /** `issues.opened`: label a new issue whose title names a channel with it and `待翻译`. */
    method OnIssueOpened(n: nat, title: string)
      modifies this`labels
      ensures OpeningLabels(title) == [] ==> labels == old(labels)
      ensures OpeningLabels(title) != [] ==>
                labels == old(labels)[n := WithLabels(LabelsOf(old(labels), n), OpeningLabels(title))]
    {
      var found := CollectTitleChannels(title);
      if |found| == 0 {
        return;
      }
      found := found + [ToTranslate];
      AddLabels(n, found);
    }

    /** `pull_request.opened`: a subtitle pull naming an open channel task moves it to review. */
    method OnPullOpened(pull: nat, body: string)
      modifies this`labels
      ensures labels == match ReviewTarget(old(labels), open, files, pull, body)
                        case None => old(labels)
                        case Some(t) => Reviewed(old(labels), t.0, pull, t.1)
    {
      var isUpload := IsSubtitlePull(pull);
      if !isUpload {
        return;
      }
      var issueNumber := ReferencedIssue(body);
      if !Truthy(issueNumber) {
        return;
      }
      if !OpenIn(open, issueNumber.value) {
        return;
      }
      var channel := ChannelLabelOf(issueNumber.value);
      if channel.None? {
        return;
      }
      SetStatusLabel(issueNumber.value, ToReview);
      AddLabels(pull, [channel.value]);
    }

    /** The review rule of `issue_comment.created`: as on opening, for a comment on an open pull. */
    method OnPullComment(ev: CommentEvent)
      modifies this`labels
      ensures labels == match CommentReviewTarget(ev, old(labels), open, files)
                        case None => old(labels)
                        case Some(t) => Reviewed(old(labels), t.0, ev.issue, t.1)
    {
      if !ev.issueOpen {
        return;
      }
      if !ev.onPull {
        return;
      }
      var isUpload := IsSubtitlePull(ev.issue);
      if !isUpload {
        return;
      }
      var issueNumber := ReferencedIssue(ev.body);
      if !Truthy(issueNumber) {
        return;
      }
      if !OpenIn(open, issueNumber.value) {
        return;
      }
      var channel := ChannelLabelOf(issueNumber.value);
      if channel.None? {
        return;
      }
      SetStatusLabel(issueNumber.value, ToReview);
      AddLabels(ev.issue, [channel.value]);
    }

    /** `pull_request.closed`: a merged subtitle pull moves its open channel task to `待上传`. */
    method OnPullClosed(pull: nat, merged: bool)
      modifies this`labels
      ensures labels == match MergeTarget(old(labels), open, files, bodies, comments, pull, merged)
                        case None => old(labels)
                        case Some(task) => old(labels)[task := WithStatus(LabelsOf(old(labels), task), ToUpload)]
    {
      if !merged {
        return;
      }
      var isUpload := IsSubtitlePull(pull);
      if !isUpload {
        return;
      }
      var issueNumber := HistoryIssue(pull);
      if !Truthy(issueNumber) {
        return;
      }
      if !OpenIn(open, issueNumber.value) {
        return;
      }
      var channel := ChannelLabelOf(issueNumber.value);
      if channel.None? {
        return;
      }
      SetStatusLabel(issueNumber.value, ToUpload);
    }

    // ----- the upload pipeline's writes -----

    /** `git.createTree`: a tree holding one file on top of `base`. */
    method CreateTree(base: Sha, path: string, content: string) returns (sha: Sha)
      modifies this`writes
      ensures writes == old(writes) + [TreeCreated(base, path, content)]
      ensures sha == Written(|old(writes)|)
    {
      sha := Written(|writes|);
      writes := writes + [TreeCreated(base, path, content)];
    }

    /** `git.createCommit` with a single parent. */
    method CreateCommit(message: string, tree: Sha, parent: Sha) returns (sha: Sha)
      modifies this`writes
      ensures writes == old(writes) + [CommitCreated(message, tree, parent)]
      ensures sha == Written(|old(writes)|)
    {
      sha := Written(|writes|);
      writes := writes + [CommitCreated(message, tree, parent)];
    }

    /** `git.createRef`: refused, with nothing written, when the ref already exists. */
    method CreateRef(ref: string, target: Sha) returns (created: bool)
      modifies this`writes, this`refs
      ensures created <==> ref !in old(refs)
      ensures created ==> refs == old(refs) + {ref} && writes == old(writes) + [RefCreated(ref, target)]
      ensures !created ==> refs == old(refs) && writes == old(writes)
    {
      if ref in refs {
        return false;
      }
      refs := refs + {ref};
      writes := writes + [RefCreated(ref, target)];
      return true;
    }

    /**
     * `pulls.create`: a new open pull with the next free number, whose
     * changed files are `changed`, whose body is `body`, and which has no
     * labels and no comments yet, whatever was stored under that number.
     */
    method CreatePull(title: string, head: string, base: string, body: string, changed: seq<string>)
      returns (number: nat)
      modifies this`writes, this`labels, this`open, this`files, this`bodies, this`comments, this`nextNumber
      ensures number == old(nextNumber) && nextNumber == old(nextNumber) + 1
      ensures labels == old(labels)[number := []]
      ensures comments == old(comments)[number := []]
      ensures open == old(open)[number := true]
      ensures files == old(files)[number := changed]
      ensures bodies == old(bodies)[number := body]
      ensures writes == old(writes) + [PullCreated(number, title, head, base, body)]
    {
      number := nextNumber;
      nextNumber := nextNumber + 1;
      labels := labels[number := []];
      comments := comments[number := []];
      open := open[number := true];
      files := files[number := changed];
      bodies := bodies[number := body];
      writes := writes + [PullCreated(number, title, head, base, body)];
    }

    /** `issues.updateComment`; comment ids are not tied to the stored texts, so only the log changes. */
    method UpdateComment(id: nat, body: string)
      modifies this`writes
      ensures writes == old(writes) + [CommentUpdated(id, body)]
    {
      writes := writes + [CommentUpdated(id, body)];
    }

    /** `issues.createComment`: appends to the issue's comments. */
    method CreateComment(issue: nat, body: string)
      modifies this`writes, this`comments
      ensures writes == old(writes) + [CommentCreated(issue, body)]
      ensures comments == old(comments)[issue := CommentsOf(old(comments), issue) + [body]]
    {
      writes := writes + [CommentCreated(issue, body)];
      comments := comments[issue := CommentsOf(comments, issue) + [body]];
    }

    /**
     * The upload rule of `issue_comment.created`, `d` standing for the random
     * digit of the branch name: the precondition checks, then the pipeline.
     */
    method OnUploadComment(ev: CommentEvent, d: nat) returns (outcome: UploadOutcome)
      requires d <= 9
      modifies this`writes, this`refs, this`labels, this`open, this`files, this`bodies, this`comments, this`nextNumber
      ensures !UploadAccepted(ev) ==>
                && outcome == Declined && writes == old(writes) && refs == old(refs)
                && labels == old(labels) && open == old(open)
                && files == old(files) && bodies == old(bodies) && comments == old(comments)
                && nextNumber == old(nextNumber)
      ensures UploadAccepted(ev) ==> UploadEffect(ev, d, outcome)
    {
      if ev.onPull {
        return Declined;
      }
      if ev.assignee.None? {
        return Declined;
      }
      if ev.senderId != ev.assignee.value {
        return Declined;
      }
      var channel, folder := FindChannelAndFolder(ev.issueLabels);
      if channel.None? {
        return Declined;
      }
      var subtitles := RequestBody(ev.body);
      if subtitles.None? || subtitles.value == "" {
        return Declined;
      }
      outcome := Upload(ev, d, folder, subtitles.value);
    }

    /** The effect of an accepted upload comment on the tracker, against the state before it. */
    twostate predicate UploadEffect(ev: CommentEvent, d: nat, outcome: UploadOutcome)
      requires UploadAccepted(ev) && d <= 9
      reads this
    {
      && (UploadRef(ev, d) in old(refs) ==>
            && outcome == BranchExists
            && writes == old(writes) + UploadObjects(ev, old(baseTip), |old(writes)|)
            && refs == old(refs) && labels == old(labels) && open == old(open) && files == old(files)
            && bodies == old(bodies) && comments == old(comments) && nextNumber == old(nextNumber))
      && (UploadRef(ev, d) !in old(refs) ==>
            var pull := old(nextNumber);
            && outcome == Uploaded(pull)
            && writes == old(writes) + UploadObjects(ev, old(baseTip), |old(writes)|)
                        + UploadFinish(ev, d, |old(writes)|, pull)
            && refs == old(refs) + {UploadRef(ev, d)}
            && labels == old(labels)[pull := []]
            && open == old(open)[pull := true]
            && files == old(files)[pull := [UploadFile(ev)]]
            && bodies == old(bodies)[pull := PullBody(ev.issue, ev.senderLogin)]
            && comments == old(comments)[pull := []][ev.issue := CommentsOf(old(comments)[pull := []], ev.issue)
                                                                 + [Notice(ev.senderLogin, pull)]]
            && nextNumber == pull + 1)
    }

    /**
     * The ordered write chain of an accepted upload. When the ref is taken it
     * stops after the tree and the commit, which stay written.
     */
    method Upload(ev: CommentEvent, d: nat, folder: string, subtitles: string) returns (outcome: UploadOutcome)
      requires UploadAccepted(ev) && d <= 9
      requires folder == FolderAsWritten(ev.issueLabels) && subtitles == Payload(ev)
      modifies this`writes, this`refs, this`labels, this`open, this`files, this`bodies, this`comments, this`nextNumber
      ensures UploadEffect(ev, d, outcome)
    {
      var branch := BranchName(ev.issue, d);
      var sha := baseTip;
      var tree := CreateTree(sha, UploadPath(folder, ev.issue), subtitles);
      var commit := CreateCommit(CommitMessage(ev.issue, ev.senderLogin), tree, sha);
      var created := CreateRef(RefName(branch), commit);
      if !created {
        return BranchExists;
      }
      var newPull := CreatePull(ev.title, branch, BaseBranch, PullBody(ev.issue, ev.senderLogin),
                                [UploadPath(folder, ev.issue)]);
      UpdateComment(ev.commentId, FoldedComment(subtitles));
      CreateComment(ev.issue, Notice(ev.senderLogin, newPull));
      return Uploaded(newPull);
    }
  }

  // ----- properties of the rules -----

  /**
   * The review rule fires exactly when the pull is a subtitle upload, its text
   * names an issue truthily and that issue is open: the later channel check
   * never stops it, because the reference scan only accepts issues that carry
   * a channel label. The channel applied is that issue's first channel label.
   */
  lemma ReviewTargetSpec(labels: map<nat, seq<string>>, open: map<nat, bool>, files: map<nat, seq<string>>,
                         pull: nat, text: string)
    ensures ReviewTarget(labels, open, files, pull, text).Some? <==>
              && IsSubtitleChange(FilesOf(files, pull))
              && Truthy(ReferenceIn(text, labels))
              && OpenIn(open, ReferenceIn(text, labels).value)
    ensures ReviewTarget(labels, open, files, pull, text).Some? ==>
              && ReviewTarget(labels, open, files, pull, text).value.0 == ReferenceIn(text, labels).value
              && Some(ReviewTarget(labels, open, files, pull, text).value.1)
                 == FirstChannel(LabelsOf(labels, ReferenceIn(text, labels).value))
  {
    ReferenceHasChannel(text, labels);
  }

  /** Whatever number the reference scan returns carries a channel label. */
  lemma ReferenceHasChannel(text: string, store: map<nat, seq<string>>)
    ensures ReferenceIn(text, store).Some? ==> HasChannel(store, ReferenceIn(text, store).value)
  {
    ReferenceInSpec(text, store);
  }

  /**
   * The merge rule fires exactly when the pull was merged, is a subtitle
   * upload, and its history (as written: body, then the first comment only)
   * names an open issue truthily; again the channel check never stops it.
   */
  lemma MergeTargetSpec(labels: map<nat, seq<string>>, open: map<nat, bool>, files: map<nat, seq<string>>,
                        bodies: map<nat, string>, comments: map<nat, seq<string>>, pull: nat, merged: bool)
    ensures var r := HistoryReferenceAsWritten(BodyOf(bodies, pull), CommentsOf(comments, pull), labels);
      MergeTarget(labels, open, files, bodies, comments, pull, merged) ==
        if merged && IsSubtitleChange(FilesOf(files, pull)) && Truthy(r) && OpenIn(open, r.value)
        then Some(r.value) else None
  {
    var all := CommentsOf(comments, pull);
    ReferenceHasChannel(BodyOf(bodies, pull), labels);
    if |all| > 0 {
      ReferenceHasChannel(all[0], labels);
    }
  }

  /**
   * After a review the task's only status label is `待审阅`, its channel is
   * unchanged, the pull carries the channel label, a distinct pull keeps its
   * own status labels, and no other issue changes.
   */
  lemma ReviewedSpec(labels: map<nat, seq<string>>, task: nat, pull: nat, channel: string)
    requires FirstChannel(LabelsOf(labels, task)) == Some(channel)
    ensures var r := Reviewed(labels, task, pull, channel);
      && StatusOf(LabelsOf(r, task)) == [ToReview]
      && FirstChannel(LabelsOf(r, task)) == Some(channel)
      && channel in LabelsOf(r, pull)
      && (pull != task ==> LabelsOf(r, pull) == WithLabel(LabelsOf(labels, pull), channel))
      && (pull != task ==> StatusOf(LabelsOf(r, pull)) == StatusOf(LabelsOf(labels, pull)))
      && forall n :: n != task && n != pull ==> LabelsOf(r, n) == LabelsOf(labels, n)
  {
    var l := LabelsOf(labels, task);
    var staged := WithStatus(l, ToReview);
    CatalogShape();
    WithStatusSpec(l, ToReview);
    WithStatusKeepsChannel(l, ToReview);
    assert !IsStatusLabel(channel);
    if pull == task {
      WithLabelKeepsStatus(staged, channel);
      if channel !in staged {
        FirstChannelAppend(staged, [channel]);
      }
    } else {
      WithLabelKeepsStatus(LabelsOf(labels, pull), channel);
    }
  }

  /** A title that names a channel opens a task: that channel first in its labels, status `待翻译`. */
  lemma OpenedIssueIsTask(title: string)
    requires OpeningLabels(title) != []
    ensures var l := WithLabels([], OpeningLabels(title));
      && FirstChannel(l).Some? && NamesChannel(title, FirstChannel(l).value)
      && StatusOf(l) == [ToTranslate]
  {
    OpeningLabelsSpec(title);
    var o := OpeningLabels(title);
    OpeningPairIsTask(o[0]);
    assert o == [o[0], ToTranslate];
  }

  /** Labelling a bare issue with a channel and `待翻译` gives exactly those two, channel first. */
  lemma OpeningPairIsTask(channel: string)
    requires IsChannelLabel(channel)
    ensures var l := WithLabels([], [channel, ToTranslate]);
      && l == [channel, ToTranslate] && FirstChannel(l) == Some(channel) && StatusOf(l) == [ToTranslate]
  {
    CatalogShape();
    var o := [channel, ToTranslate];
    assert ToTranslate != channel;
    assert WithLabel([], channel) == [channel];
    assert o[1..] == [ToTranslate];
    assert WithLabel([channel], ToTranslate) == o;
    assert WithLabels([channel], [ToTranslate]) == WithLabels(o, []) by {
      assert [ToTranslate][1..] == [];
    }
    FirstChannelIsEarliest(o, 0);
    assert StatusOf(o) == [] + StatusOf(o[1..]);
    assert StatusOf(o[1..]) == [ToTranslate] + StatusOf(o[1..][1..]);
  }

  /**
   * The pull the upload rule opens finds its way back to the task: when it
   * is opened the review rule targets the task, and when it is merged the
   * merge rule does, as long as the task carries a channel label and is open.
   */
  lemma UploadedPullFindsTask(labels: map<nat, seq<string>>, open: map<nat, bool>, files: map<nat, seq<string>>,
                              bodies: map<nat, string>, comments: map<nat, seq<string>>,
                              ev: CommentEvent, pull: nat)
    requires ev.issue != 0 && HasChannel(labels, ev.issue)
    requires FilesOf(files, pull) == [UploadFile(ev)]
    requires BodyOf(bodies, pull) == PullBody(ev.issue, ev.senderLogin)
    ensures ReviewTarget(labels, open, files, pull, BodyOf(bodies, pull)) ==
              if OpenIn(open, ev.issue) then Some((ev.issue, FirstChannel(LabelsOf(labels, ev.issue)).value)) else None
    ensures MergeTarget(labels, open, files, bodies, comments, pull, true) ==
              if OpenIn(open, ev.issue) then Some(ev.issue) else None
  {
    FolderAsWrittenHasNoSlash(ev.issueLabels);
    UploadPathIsSubtitlePath(FolderAsWritten(ev.issueLabels), ev.issue);
    PullBodyReferencesIssue(ev.issue, ev.senderLogin, labels);
  }
}
