/**
 * The upload command: the `bot, please upload` prefix and the payload after it,
 * the channel folder the command is filed under, and the texts the upload
 * pipeline writes (file path, branch name, commit message, pull body, the folded
 * comment and the notice).
 */
module UploadCommand {
  import opened Wrappers
  import opened Strings
  import opened Catalog
  import opened LabelLists
  import opened Classification
  import opened References

  /** The literal command prefix. */
  const Header: string := "bot, please upload"

  /** `getSubtitleRequestBody`: the text after the prefix, or nothing when the prefix is missing. */
  function RequestBody(message: string): (r: Option<string>)
    ensures r.None? <==> !StartsWith(message, Header)
    ensures r.Some? ==> Header + r.value == message
  {
    if !StartsWith(message, Header) then None else Some(message[|Header|..])
  }

  /** Any payload written after the prefix is read back unchanged. */
  lemma RequestBodyOfCommand(payload: string)
    ensures RequestBody(Header + payload) == Some(payload)
  {
    var m := Header + payload;
    assert m[..|Header|] == Header;
    assert m[|Header|..] == payload;
  }

  /** How a JavaScript template literal renders `undefined`. */
  const Undefined: string := "undefined"

  /**
   * The folder the upload handler files a command under, as written: the
   * folder at the position the first channel label has in the issue's OWN
   * label list, `undefined` when that position is past the folder table.
   */
  function FolderAsWritten(labels: seq<string>): string {
    match FirstChannelIndex(labels)
    case None => Undefined
    case Some(i) => if i < |ChannelFolders| then ChannelFolders[i] else Undefined
  }

  /** The loop over the issue's labels that picks the channel label and (as written) its folder. */
  method FindChannelAndFolder(labels: seq<string>) returns (channel: Option<string>, folder: string)
    ensures channel == FirstChannel(labels)
    ensures folder == FolderAsWritten(labels)
  {
    channel, folder := None, Undefined;
    for i := 0 to |labels|
      invariant forall j :: 0 <= j < i ==> !IsChannelLabel(labels[j])
    {
      if !IsChannelLabel(labels[i]) {
        continue;
      }
      channel := Some(labels[i]);
      folder := if i < |ChannelFolders| then ChannelFolders[i] else Undefined;
      FirstChannelIsEarliest(labels, i);
      return;
    }
  }

  /** Position of a channel in the catalog. */
  function CatalogIndex(channel: string): (i: nat)
    requires IsChannelLabel(channel)
    ensures i < |ChannelLabels| && ChannelLabels[i] == channel
  {
    CatalogIndexFrom(ChannelLabels, channel)
  }

  function CatalogIndexFrom(channels: seq<string>, channel: string): (i: nat)
    requires channel in channels
    ensures i < |channels| && channels[i] == channel
    decreases |channels|
  {
    if channels[0] == channel then 0 else 1 + CatalogIndexFrom(channels[1..], channel)
  }

  /** The intended folder of a channel: the one at the channel's own catalog position. */
  function FolderOf(channel: string): string
    requires IsChannelLabel(channel)
  {
    ChannelFolders[CatalogIndex(channel)]
  }

  /** The intended folder agrees with the aligned tables entry by entry. */
  lemma FolderOfAligned(i: nat)
    requires i < |ChannelLabels|
    ensures FolderOf(ChannelLabels[i]) == ChannelFolders[i]
  {
    CatalogShape();
    var k := CatalogIndex(ChannelLabels[i]);
    assert !(k < i) && !(i < k);
  }

  /**
   * The folder as written is the intended one exactly when the first channel
   * label sits at the same position in the issue's labels as in the catalog.
   */
  lemma FolderAsWrittenIff(labels: seq<string>)
    requires FirstChannel(labels).Some?
    ensures FolderAsWritten(labels) == FolderOf(FirstChannel(labels).value)
            <==> FirstChannelIndex(labels).value == CatalogIndex(FirstChannel(labels).value)
  {
    CatalogShape();
    var i := FirstChannelIndex(labels).value;
    var k := CatalogIndex(FirstChannel(labels).value);
    assert forall j :: 0 <= j < |ChannelFolders| ==> ChannelFolders[j] != Undefined;
    if i < |ChannelFolders| && i != k {
      assert i < k || k < i;
    }
  }

  /**
   * The defect: an issue labelled `["美食作家王刚", "待翻译"]` (the order the
   * issue-opened rule writes) files its upload under `test-author`, the folder of
   * catalog position 0, instead of `wang-gang`; one whose channel label comes
   * fifth gets the folder `undefined`.
   */
  lemma FolderAsWrittenMisfiles()
    ensures FolderAsWritten(["美食作家王刚", ToTranslate]) == "test-author"
    ensures FolderOf("美食作家王刚") == "wang-gang"
    ensures FolderAsWritten(["a", "b", "c", "d", "华农兄弟"]) == Undefined
  {
    FirstChannelIsEarliest(["美食作家王刚", ToTranslate], 0);
    FolderOfAligned(1);
    var l := ["a", "b", "c", "d", "华农兄弟"];
    FirstChannelIsEarliest(l, 4);
  }

  /** Neither a catalog folder nor `undefined` contains a `/`. */
  lemma FolderAsWrittenHasNoSlash(labels: seq<string>)
    ensures '/' !in FolderAsWritten(labels)
  {
    CatalogShape();
  }

  /** `subtitles-issue-<n>`: the name of the uploaded file. */
  function UploadFileName(issue: nat): string {
    "subtitles-issue-" + Decimal(issue)
  }

  /** `subtitles/<folder>/subtitles-issue-<n>`. */
  function UploadPath(folder: string, issue: nat): string {
    SubtitlesRoot + folder + "/" + UploadFileName(issue)
  }

  /** `issue-<n>-<d>`, `d` being the random digit. */
  function BranchName(issue: nat, d: nat): string
    requires d <= 9
  {
    "issue-" + Decimal(issue) + "-" + Decimal(d)
  }

  function RefName(branch: string): string {
    "refs/heads/" + branch
  }

  function CommitMessage(issue: nat, login: string): string {
    "Upload subtitles for issue #" + Decimal(issue) + " on behalf of @" + login
  }

  function PullBody(issue: nat, login: string): string {
    "#" + Decimal(issue) + "\n\nUploaded on behalf of @" + login
  }

  const FoldOpening: string := "\n\n<details><summary>Subtitles uploaded as pull request</summary>```\n"
  const FoldClosing: string := "\n```</details>"

  /** The text the triggering comment is rewritten to. */
  function FoldedComment(subtitles: string): string {
    Header + FoldOpening + subtitles + FoldClosing
  }

  function Notice(login: string, pull: nat): string {
    "@" + login + ", I've uploaded your subtitles as #" + Decimal(pull) + "."
  }

  /** The uploaded file lands where the pull classifier looks: one file, three path segments. */
  lemma UploadPathIsSubtitlePath(folder: string, issue: nat)
    requires '/' !in folder
    ensures IsSubtitleChange([UploadPath(folder, issue)])
  {
    var name := UploadFileName(issue);
    assert '/' !in name by {
      assert forall k :: 0 <= k < |Decimal(issue)| ==> IsDigit(Decimal(issue)[k]);
    }
    SubtitlePathIntro(folder, name);
  }

  /** Branch names are `issue-<n>-<d>` with a single digit `d`: ten names per task, never shared between tasks. */
  lemma BranchNameInjective(m: nat, d: nat, n: nat, e: nat)
    requires d <= 9 && e <= 9
    requires BranchName(m, d) == BranchName(n, e)
    ensures m == n && d == e
  {
    var bm, bn := BranchName(m, d), BranchName(n, e);
    assert |Decimal(d)| == 1 && |Decimal(e)| == 1;
    assert |Decimal(m)| == |Decimal(n)|;
    var k := |Decimal(m)|;
    assert Decimal(m) == bm[6..6 + k];
    assert Decimal(n) == bn[6..6 + k];
    DecimalInjective(m, n);
    assert Decimal(d) == bm[|bm| - 1..];
    assert Decimal(e) == bn[|bn| - 1..];
    DecimalInjective(d, e);
  }

  /** The opened pull's body names the task first, so the pull resolves back to it. */
  lemma PullBodyReferencesIssue(issue: nat, login: string, store: map<nat, seq<string>>)
    ensures Tokens(PullBody(issue, login)) != [] && Tokens(PullBody(issue, login))[0] == issue
    ensures HasChannel(store, issue) ==> ReferenceIn(PullBody(issue, login), store) == Some(issue)
  {
    var rest := "\n\nUploaded on behalf of @" + login;
    assert PullBody(issue, login) == "#" + Decimal(issue) + rest;
    TokensLead(issue, rest);
    if HasChannel(store, issue) {
      ReferenceInIsFirst(PullBody(issue, login), store, 0);
    }
  }

  /**
   * The rewritten comment keeps the command prefix and holds the payload
   * verbatim between the opening and the closing of a `<details>` block.
   */
  lemma FoldedCommentSpec(subtitles: string)
    ensures StartsWith(FoldedComment(subtitles), Header)
    ensures var k := |Header + FoldOpening|;
      FoldedComment(subtitles)[k..k + |subtitles|] == subtitles
      && FoldedComment(subtitles)[..k] == Header + FoldOpening
      && FoldedComment(subtitles)[k + |subtitles|..] == FoldClosing
  {
    var f := FoldedComment(subtitles);
    assert f == (Header + FoldOpening) + subtitles + FoldClosing;
    assert f[..|Header|] == Header;
  }

  /**
   * Because the prefix survives the rewrite, the folded comment still reads
   * as an upload command with a non-empty payload.
   */
  lemma FoldedCommentIsACommand(subtitles: string)
    ensures RequestBody(FoldedComment(subtitles)) == Some(FoldOpening + subtitles + FoldClosing)
    ensures RequestBody(FoldedComment(subtitles)).value != ""
  {
    assert FoldedComment(subtitles) == Header + (FoldOpening + subtitles + FoldClosing);
    RequestBodyOfCommand(FoldOpening + subtitles + FoldClosing);
  }
}
