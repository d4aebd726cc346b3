# Subtitle-workflow bot, modelled in Dafny

This project models `index.js`, the rule set of a GitHub bot that runs a
subtitle-translation workflow. Issues are translation tasks. A task belongs to a
channel (a video series) through a channel label. A task's progress is one
status label out of `待翻译` (to translate), `待审阅` (to review), `待上传`
(to upload) and `待发布` (to publish). Translators send subtitles as pull
requests that add a single file under `subtitles/<folder>/`, or they ask the bot
to open such a pull with a `bot, please upload` comment.

The tracker is abstract. `Workflow.Tracker` holds, per issue or pull number:
- the ordered label list;
- the open flag;
- the changed-file list;
- the body;
- the comment texts.

It also holds the set of existing refs, the base branch's tip, the next free
pull number, and an ordered log of the git and comment writes.

The modules follow the source's structure:
- `Strings`: prefix tests, the decimal reading and writing of numbers (`parseInt`
  and template literals), and `split`.
- `Catalog`: the three tables, the first-channel lookup, and the title-prefix
  test of the opening rule.
- `LabelLists`: label-list updates and the status transition.
- `Classification`: the subtitle-pull path shape.
- `References`: the `#N` scan and the two history searches.
- `UploadCommand`: the command prefix, the folder choice, and the strings the
  upload rule builds.
- `Workflow`: the tracker class, the five reaction rules, and the properties
  that link them.

Three behaviours of the code that a reader may not expect, all kept in the model:
- A task's channel is its first channel label in the issue's own label order:
  a task with two channel labels still takes the first one.
- The upload folder is the catalog folder at the channel label's position in
  the issue's label list, not the folder paired with the channel in the
  catalog (see Findings).
- The merge rule reads the body and then only the first comment, although the
  comment at index.js:82-83 promises the first mentioned issue that has a
  channel label, body and comments alike (see Findings).

## Model

| member | source | states |
|---|---|---|
| Catalog.CatalogShape | index.js:1-20 | The catalogs have four channels, four folders and four statuses. Channel labels, folders and statuses are each pairwise distinct. No channel is a status. No folder contains `/`. |
| Catalog.FirstChannelIndex | index.js:37-44 | The result is the position of a channel label with no channel label before it, or none exactly when the list has no channel label. |
| Catalog.FirstChannel | index.js:37-44 | The result is none, or a channel label that occurs in the list. It is none exactly when no label is a channel label. |
| Catalog.FirstChannelIsEarliest | index.js:39-43 | A channel label with none before it is the one returned: first match wins. |
| Catalog.FirstChannelAppend | index.js:39-43 | The first channel of `a + b` is that of `a` when `a` has one, otherwise that of `b`. |
| Catalog.CollectTitleChannels | index.js:120-131 | The loop over the catalog collects exactly the channels the title names, in catalog order. |
| Catalog.TitleChannelsMembers | index.js:123-128 | A channel is collected exactly when it is in the catalog and the title starts with `[c]` or `【c】`. |
| Catalog.NamesChannelUnique | index.js:126 | A title cannot name two different catalog channels, because no channel label contains `]` or `】`. |
| Catalog.TitleChannelsAtMostOne | index.js:122-131 | At most one channel is ever collected. |
| Catalog.OpeningLabelsSpec | index.js:120-133 | The labels to add are empty exactly when no channel is named. Otherwise they are the named channel followed by `待翻译`. A channel is among them exactly when the title names it. |
| LabelLists.Without | index.js:99-108 | Removing a label keeps every other label, and removing an absent label changes nothing. |
| LabelLists.WithLabel | index.js:151 | Adding a label makes it present, keeps every other label, and keeps the old list as a prefix. |
| LabelLists.WithLabels | index.js:132 | Adding several labels gives the union of both lists, and the old list stays a prefix. |
| LabelLists.WithStatusSpec | index.js:46-53 | After a transition to `s`, the only status label is `s` and the non-status labels are kept in their order. |
| LabelLists.WithStatusIdempotent | index.js:46-53 | A second transition to the same status changes nothing. |
| LabelLists.NonStatusHasNoStatus | index.js:99-108 | Removing all status labels leaves none, and doing it again changes nothing. |
| LabelLists.NonStatusMembers | index.js:101 | A label survives the removal exactly when it is present and not a status label. |
| LabelLists.NonStatusKeepsChannel | index.js:99-108 | Removing the status labels never changes the first channel label. |
| LabelLists.WithStatusKeepsChannel | index.js:46-53 | A status transition never changes which channel a task belongs to. |
| LabelLists.WithLabelKeepsStatus | index.js:151 | Adding a non-status label leaves the status labels unchanged. |
| LabelLists.DropStatusInStep | index.js:101-107 | Each removal in the loop adds one more removed status label to the running result; a non-status label changes nothing. |
| LabelLists.DropStatusInAll | index.js:99-108 | Once every label has been visited, exactly the non-status labels remain. |
| Classification.SubtitlePathIntro | index.js:57-67 | Every `subtitles/<folder>/<name>` with slash-free parts is a subtitle path. |
| Classification.SubtitlePathElim | index.js:57-67 | Every subtitle path is `subtitles/<folder>/<name>` with slash-free parts. |
| Classification.SubtitleChangeAccepts | index.js:60-66 | A single file `subtitles/<folder>/<name>` with slash-free parts makes a subtitle pull; `subtitles/foo/bar.srt` is an example. |
| Classification.SubtitlePathNeedsFolder | index.js:66 | `subtitles/<name>` with a slash-free name has two segments and is not a subtitle path. |
| Classification.SubtitleChangeRejects | index.js:57-67 | The lists `[foo/bar.srt]`, `[subtitles/bar.srt]`, `[]` and a list of two subtitle files are all rejected. |
| Strings.ParseDecimalOfDecimal | index.js:76 | Reading back the decimal rendering of `n` gives `n`. |
| Strings.DecimalInjective | index.js:229 | Distinct numbers render to distinct decimal strings. |
| Strings.DigitRun | index.js:71-72 | The greedy digit run is a digit-only prefix, and it is followed by a non-digit or the end. |
| Strings.Split | index.js:66 | Splitting on `c` gives one more part than there are `c`s, and no part contains `c`. |
| Strings.JoinSplit | index.js:66 | Joining the parts back with `c` gives the original string. |
| References.TokensLead | index.js:71-72 | A text beginning `#<decimal n>` followed by a non-digit yields `n` as its first token. |
| References.TokensSkip | index.js:71-72 | A prefix without `#` contributes no token. |
| References.FirstLabelledIndex | index.js:74-78 | The result is the position of the first token whose issue has a channel label, or none exactly when no token's issue has one. |
| References.ReferenceInSpec | index.js:69-80 | The result is none exactly when no token's issue has a channel label. Otherwise it is the first token, in textual order, whose issue has one. |
| References.ReferenceInIsFirst | index.js:74-78 | A qualifying token with no qualifying token before it is the one returned. |
| References.TokensOfTwoMentions | index.js:71-72 | A text mentioning `#m` and then `#n`, separated by non-digit text, yields the tokens `m, n` in that order. |
| References.ReferenceOfTwoMentions | index.js:69-80 | For a text mentioning `#m` and then `#n`, where `n` has a channel label, the result is `m` when `m` has one and `n` otherwise. |
| References.NoMarkNoReference | index.js:71-73 | A text without `#` names no issue. |
| References.FirstTextReference | index.js:82-97 | The ordered search returns a truthy reference, or none exactly when no text yields one. |
| References.FirstTextReferenceIsFirst | index.js:88-95 | The first text with a truthy reference decides the search. |
| References.HistoryReferenceAgrees | index.js:82-97 | When the body decides or there is at most one comment, the as-written and the intended search agree for the caller: one is truthy exactly when the other is, and then they are equal. |
| References.HistoryReferenceAsWrittenMissesLaterComments | index.js:91-94 | For any body and first comment without `#`, and a second comment naming a labelled issue `n`, the as-written search gives none while the intended one gives `n`. |
| UploadCommand.RequestBody | index.js:110-116 | The result is none exactly when the message lacks the prefix. Otherwise the prefix followed by the result is the message. |
| UploadCommand.RequestBodyOfCommand | index.js:110-116 | Stripping the prefix from prefix plus `s` gives `s`. |
| UploadCommand.FindChannelAndFolder | index.js:207-218 | The loop returns the first channel label and the folder at that label's position in the issue's list, or `undefined` when that position is beyond the catalog. |
| UploadCommand.FolderOfAligned | index.js:1-13 | The folder paired with the catalog's i-th label is the i-th folder. |
| UploadCommand.FolderAsWrittenIff | index.js:211-216 | The folder used equals the channel's own folder exactly when the label's position in the issue equals its catalog position. |
| UploadCommand.FolderAsWrittenMisfiles | index.js:211-216 | An issue labelled `美食作家王刚, 待翻译` gets folder `test-author`, not `wang-gang`. A fifth-position channel label gets `undefined`. |
| UploadCommand.FolderAsWrittenHasNoSlash | index.js:211-216 | The folder used never contains `/`. |
| UploadCommand.UploadPathIsSubtitlePath | index.js:240-241 | The uploaded file's path passes the subtitle-pull check. |
| UploadCommand.BranchNameInjective | index.js:229 | `issue-<n>-<d>` determines both `n` and `d`, so two tasks never share a branch. |
| UploadCommand.PullBodyReferencesIssue | index.js:279 | The pull body's first token is the task, so it resolves to the task whenever the task has a channel label. |
| UploadCommand.FoldedCommentSpec | index.js:282-289 | The rewritten comment starts with the prefix and holds the payload verbatim between the `<details>` opening and closing. |
| UploadCommand.FoldedCommentIsACommand | index.js:282-289 | The rewritten comment still reads as an upload command with a non-empty payload. |
| Workflow.ReviewTargetSpec | index.js:138-152 | The review rule acts exactly when the pull is a subtitle pull and names a truthy, open issue. The channel re-check never stops it. The channel applied is the task's first channel label. |
| Workflow.ReferenceHasChannel | index.js:74-78 | Any number the scan returns has a channel label. |
| Workflow.MergeTargetSpec | index.js:179-193 | The merge rule acts exactly when the pull is merged, is a subtitle pull, and its as-written history names a truthy, open issue. |
| Workflow.ReviewedSpec | index.js:150-151 | After review the task's only status is `待审阅` and its channel is unchanged, and the pull carries the channel. When the pull is not the task, the pull only gains the channel and keeps its own statuses. No other issue changes. |
| Workflow.OpenedIssueIsTask | index.js:120-133 | A newly opened issue whose title names a channel has that channel and status `待翻译`. |
| Workflow.OpeningPairIsTask | index.js:132 | Adding the channel and `待翻译` to an unlabelled issue gives exactly those two labels. |
| Workflow.UploadedPullFindsTask | index.js:240-279 | A pull the upload rule opens makes the review rule and the merge rule target the task whenever the task is open and has a channel label. |
| Workflow.Tracker.RemoveLabel | index.js:102-106 | The issue's labels lose that label, and nothing else changes. |
| Workflow.Tracker.AddLabels | index.js:48-52 | The issue's labels gain the new ones, and nothing else changes. |
| Workflow.Tracker.ChannelLabelOf | index.js:37-44 | The early-exit loop returns the first channel label of the issue. |
| Workflow.Tracker.IsSubtitlePull | index.js:57-67 | The result is exactly the subtitle-pull check on the pull's files. |
| Workflow.Tracker.ReferencedIssue | index.js:69-80 | The early-exit loop over tokens returns the first one whose issue has a channel label. |
| Workflow.Tracker.HistoryIssue | index.js:82-97 | The as-written search: the body, then the first comment's result. |
| Workflow.Tracker.HistoryIssueIntended | index.js:82-97 | The awaited search: the body, then each comment in order. |
| Workflow.Tracker.RemoveAllStatusLabels | index.js:99-108 | The issue keeps exactly its non-status labels, in order, and no other issue changes. |
| Workflow.Tracker.SetStatusLabel | index.js:46-53 | The issue's labels become the transition to `s`, and no other issue changes. |
| Workflow.Tracker.OnIssueOpened | index.js:120-133 | When no channel is named nothing is written. Otherwise the channel and `待翻译` are added. |
| Workflow.Tracker.OnPullOpened | index.js:138-152 | The labels change exactly as the review rule says, and otherwise stay as they were. |
| Workflow.Tracker.OnPullComment | index.js:157-175 | The same as on opening, but only for comments on open pulls. |
| Workflow.Tracker.OnPullClosed | index.js:179-193 | The task moves to `待上传` exactly as the merge rule says, and otherwise nothing changes. |
| Workflow.Tracker.CreateRef | index.js:265-270 | The ref is created and logged when it is new. When it exists, the call fails and nothing is written. |
| Workflow.Tracker.CreateTree | index.js:240-252 | One tree write is logged, holding the given path and content on top of the given base, and its id is the write's position in the log. |
| Workflow.Tracker.CreateCommit | index.js:256-262 | One commit write is logged, with the given message, tree and single parent, and its id is the write's position in the log. |
| Workflow.Tracker.CreatePull | index.js:273-281 | A new open pull gets the next number, the given files and body, no labels and no comments, and the counter advances. |
| Workflow.Tracker.UpdateComment | index.js:285-290 | One comment edit is logged, with the comment id and the new text. |
| Workflow.Tracker.CreateComment | index.js:293-295 | One comment write is logged, and the text is appended to the issue's comments. |
| Workflow.Tracker.OnUploadComment | index.js:199-227 | A comment that fails any check (on a pull, no assignee, sender not the assignee, no channel label, no prefix or an empty payload) writes nothing. An accepted one has the upload effect. |
| Workflow.Tracker.Upload | index.js:228-296 | A taken ref leaves only the tree and commit. Otherwise six writes follow in order: tree, commit, ref, pull, comment fold, notice. The file is `subtitles/<folder>/subtitles-issue-<n>` holding the payload unchanged, and the branch is `issue-<n>-<d>`. The new pull starts open, with that one file, the pull body, no labels and no comments. |

## Left out

- The Probot transport (`context.github.*`, `context.issue`, `app.on`) is replaced by the abstract `Workflow.Tracker`. Event payload fields are parameters.
- Asynchrony is not modelled. The un-awaited `removeLabel` and `addLabels` calls (index.js:48, 102, 132, 151) are taken as immediate, sequential writes, and concurrent deliveries are not modelled.
- `Math.random` (index.js:229) is the parameter `d`, with `0 <= d <= 9`.
- `getBranch` (index.js:232-237) is the `baseTip` field, and git object ids are opaque `Sha` values.
- API failures other than an existing ref are not modelled.
- An unknown issue number reads as unlabelled, closed, without files and without text. The source would get a transport error there.
- `parseInt` is modelled on the digit runs the scan produces, as exact unbounded integers. The loss of precision beyond 2^53 is not modelled.
- A `null` pull or comment body, which throws in the source, is not modelled.
- Owner/repo names, `maintainer_can_modify` and the commit author are not modelled.
- The tracker's label order is taken to be insertion order: a new label is appended at the end. The source reads whatever order `listLabelsOnIssue` and the payload's `issue.labels` deliver, so `FirstChannel` and `FolderAsWritten` follow that assumed order.
- Workflow.Tracker.UpdateComment: only logs the edit. Comment ids are not linked to the stored comment texts, so the folded text does not replace a stored comment.
- Workflow.Tracker.CreatePull: the new pull's changed files are passed in. The model does not derive them from the diff of the branch against the base.

## Findings

| source | as written | input that shows it | evidently intended | confidence | as-written member | corrected member |
|---|---|---|---|---|---|---|
| index.js:92 | `getSubtitleIssueNumberFromComment` is called without `await`. The pending Promise is truthy, so the loop returns on the first comment whatever it resolves to. | A merged subtitle pull with body `thanks`, first comment `lgtm`, second comment `#7`, where issue 7 has a channel label: the as-written search finds nothing. | Each comment is scanned in order until one yields an issue. | not executed | References.HistoryReferenceAsWrittenMissesLaterComments | References.FirstTextReferenceIsFirst |
| index.js:211-216 | The folder is `channelFolders[i]`, where `i` is the label's position in the issue's label list. | Labels `美食作家王刚, 待翻译`: the upload is filed under `test-author`. A channel label in fifth position gives `subtitles/undefined/…`. | The folder paired with the channel, at its catalog position. | not executed | UploadCommand.FolderAsWrittenMisfiles | UploadCommand.FolderOfAligned |
