/**
 * The bot's three fixed tables (channel labels, their storage folders and the
 * workflow status labels), the lookup of an issue's channel label, and the
 * title-prefix rule that names a channel when an issue is opened.
 */
module Catalog {
  import opened Wrappers
  import opened Strings

  /** Channel display labels, in catalog order. */
  const ChannelLabels: seq<string> := ["测试作者", "美食作家王刚", "雪鱼探店", "华农兄弟"]

  /** Storage folder of each channel, index-aligned with `ChannelLabels`. */
  const ChannelFolders: seq<string> := ["test-author", "wang-gang", "xue-yu", "hua-nong-brothers"]

  /** The mutually exclusive workflow status labels. */
  const StatusLabels: seq<string> := ["待翻译", "待审阅", "待上传", "待发布"]

  /** Queued for translation: the status of a freshly opened task. */
  const ToTranslate: string := "待翻译"
  /** Queued for review: set when a subtitle pull names the task. */
  const ToReview: string := "待审阅"
  /** Queued for upload: set when such a pull is merged. */
  const ToUpload: string := "待上传"

  predicate IsChannelLabel(name: string) {
    name in ChannelLabels
  }

  predicate IsStatusLabel(name: string) {
    name in StatusLabels
  }

  /** The facts about the tables that the rest of the model relies on. */
  lemma CatalogShape()
    ensures |ChannelLabels| == |ChannelFolders| == |StatusLabels| == 4
    ensures forall i, j :: 0 <= i < j < |ChannelLabels| ==> ChannelLabels[i] != ChannelLabels[j]
    ensures forall i, j :: 0 <= i < j < |ChannelFolders| ==> ChannelFolders[i] != ChannelFolders[j]
    ensures forall i, j :: 0 <= i < j < |StatusLabels| ==> StatusLabels[i] != StatusLabels[j]
    ensures forall l :: IsChannelLabel(l) ==> !IsStatusLabel(l)
    ensures IsStatusLabel(ToTranslate) && IsStatusLabel(ToReview) && IsStatusLabel(ToUpload)
    ensures forall i :: 0 <= i < |ChannelFolders| ==> '/' !in ChannelFolders[i]
    ensures forall i :: 0 <= i < |ChannelLabels| ==> ']' !in ChannelLabels[i] && '】' !in ChannelLabels[i]
  {
  }

  /** Position in `labels` of the first channel label, if any. */
  function FirstChannelIndex(labels: seq<string>): (r: Option<nat>)
    ensures r.Some? ==> r.value < |labels| && IsChannelLabel(labels[r.value])
    ensures r.Some? ==> forall j :: 0 <= j < r.value ==> !IsChannelLabel(labels[j])
    ensures r.None? ==> forall j :: 0 <= j < |labels| ==> !IsChannelLabel(labels[j])
    decreases |labels|
  {
    if |labels| == 0 then None
    else if IsChannelLabel(labels[0]) then Some(0)
    else match FirstChannelIndex(labels[1..])
      case None => None
      case Some(i) => Some(i + 1)
  }

  /** The channel label an issue belongs to: the first channel label in the issue's own label order. */
  function FirstChannel(labels: seq<string>): (r: Option<string>)
    ensures r.Some? ==> IsChannelLabel(r.value) && r.value in labels
    ensures r.None? <==> forall j :: 0 <= j < |labels| ==> !IsChannelLabel(labels[j])
  {
    match FirstChannelIndex(labels)
    case None => None
    case Some(i) => Some(labels[i])
  }

  /** A channel label with no channel label before it is the one `FirstChannel` returns. */
  lemma FirstChannelIsEarliest(labels: seq<string>, i: nat)
    requires i < |labels| && IsChannelLabel(labels[i])
    requires forall j :: 0 <= j < i ==> !IsChannelLabel(labels[j])
    ensures FirstChannelIndex(labels) == Some(i)
    ensures FirstChannel(labels) == Some(labels[i])
  {
    var r := FirstChannelIndex(labels);
    assert r.Some?;
    assert !(r.value < i);
    assert !(i < r.value);
  }

  /** The first channel label of a concatenation comes from its first part when that part has one. */
  lemma FirstChannelAppend(a: seq<string>, b: seq<string>)
    ensures FirstChannel(a + b) == if FirstChannel(a).Some? then FirstChannel(a) else FirstChannel(b)
  {
    var ab := a + b;
    match FirstChannelIndex(a)
    case Some(i) =>
      FirstChannelIsEarliest(ab, i);
    case None =>
      match FirstChannelIndex(b)
      case Some(k) =>
        assert ab[|a| + k] == b[k];
        assert forall j :: 0 <= j < |a| + k ==> !IsChannelLabel(ab[j]) by {
          forall j | 0 <= j < |a| + k
            ensures !IsChannelLabel(ab[j])
          {
            if j >= |a| {
              assert ab[j] == b[j - |a|];
            }
          }
        }
        FirstChannelIsEarliest(ab, |a| + k);
      case None =>
        assert forall j :: 0 <= j < |ab| ==> !IsChannelLabel(ab[j]) by {
          forall j | 0 <= j < |ab|
            ensures !IsChannelLabel(ab[j])
          {
            if j >= |a| {
              assert ab[j] == b[j - |a|];
            }
          }
        }
  }

  /** Whether an issue title opens with `[channel]` or `【channel】`. */
  predicate NamesChannel(title: string, channel: string) {
    StartsWith(title, "[" + channel + "]") || StartsWith(title, "【" + channel + "】")
  }

  /** The channels of `channels` that `title` names, in the order of `channels`. */
  function TitleChannels(channels: seq<string>, title: string): seq<string>
    decreases |channels|
  {
    if |channels| == 0 then []
    else
      var last := channels[|channels| - 1];
      TitleChannels(channels[..|channels| - 1], title) + (if NamesChannel(title, last) then [last] else [])
  }

  /** The loop that collects the channels an opened issue's title names. */
  method CollectTitleChannels(title: string) returns (found: seq<string>)
    ensures found == TitleChannels(ChannelLabels, title)
  {
    found := [];
    for i := 0 to |ChannelLabels|
      invariant found == TitleChannels(ChannelLabels[..i], title)
    {
      assert ChannelLabels[..i + 1][..i] == ChannelLabels[..i];
      var current := ChannelLabels[i];
      if NamesChannel(title, current) {
        found := found + [current];
      }
    }
    assert ChannelLabels[..|ChannelLabels|] == ChannelLabels;
  }

  /** The labels the issue-opened rule adds: the named channels, then `待翻译`, or nothing. */
  function OpeningLabels(title: string): seq<string> {
    var found := TitleChannels(ChannelLabels, title);
    if found == [] then [] else found + [ToTranslate]
  }

  lemma {:induction false} TitleChannelsMembers(channels: seq<string>, title: string, c: string)
    ensures c in TitleChannels(channels, title) <==> c in channels && NamesChannel(title, c)
    decreases |channels|
  {
    if |channels| > 0 {
      var init := channels[..|channels| - 1];
      assert channels == init + [channels[|channels| - 1]];
      TitleChannelsMembers(init, title, c);
    }
  }

  /** `title` starts with `[open] + a + [close]` and `a` has no `close`: the first `close` is right after `a`. */
  lemma BracketEnd(title: string, open: char, a: string, close: char)
    requires open != close && close !in a
    requires StartsWith(title, [open] + a + [close])
    ensures Find(title, close) == 1 + |a|
  {
    var p := [open] + a + [close];
    assert title[..1 + |a|] == [open] + a by {
      assert title[..1 + |a|] == p[..1 + |a|];
    }
    assert title[1 + |a|] == p[1 + |a|];
    FindAt(title, close, 1 + |a|);
  }

  /** At most one label can sit between the same pair of brackets at the start of a title. */
  lemma BracketedUnique(title: string, open: char, a: string, b: string, close: char)
    requires open != close && close !in a && close !in b
    requires StartsWith(title, [open] + a + [close]) && StartsWith(title, [open] + b + [close])
    ensures a == b
  {
    BracketEnd(title, open, a, close);
    BracketEnd(title, open, b, close);
    assert a == ([open] + a + [close])[1..1 + |a|] == title[1..1 + |a|];
    assert b == ([open] + b + [close])[1..1 + |b|] == title[1..1 + |b|];
  }

  /** A title names at most one catalog channel. */
  lemma NamesChannelUnique(title: string, a: string, b: string)
    requires IsChannelLabel(a) && IsChannelLabel(b)
    ensures NamesChannel(title, a) && NamesChannel(title, b) ==> a == b
  {
    CatalogShape();
    if NamesChannel(title, a) && NamesChannel(title, b) {
      var ia :| 0 <= ia < |ChannelLabels| && ChannelLabels[ia] == a;
      var ib :| 0 <= ib < |ChannelLabels| && ChannelLabels[ib] == b;
      if StartsWith(title, "[" + a + "]") {
        assert title[0] == '[';
        assert !StartsWith(title, "【" + b + "】");
        BracketedUnique(title, '[', a, b, ']');
      } else {
        assert title[0] == '【';
        assert !StartsWith(title, "[" + b + "]");
        BracketedUnique(title, '【', a, b, '】');
      }
    }
  }

  lemma {:induction false} TitleChannelsAtMostOne(channels: seq<string>, title: string)
    requires forall i :: 0 <= i < |channels| ==> IsChannelLabel(channels[i])
    requires forall i, j :: 0 <= i < j < |channels| ==> channels[i] != channels[j]
    ensures |TitleChannels(channels, title)| <= 1
    decreases |channels|
  {
    if |channels| > 0 {
      var init := channels[..|channels| - 1];
      var last := channels[|channels| - 1];
      TitleChannelsAtMostOne(init, title);
      assert last !in init by {
        forall k | 0 <= k < |init|
          ensures init[k] != last
        {
          assert init[k] == channels[k];
        }
      }
      if |TitleChannels(init, title)| == 1 {
        var other := TitleChannels(init, title)[0];
        TitleChannelsMembers(init, title, other);
        NamesChannelUnique(title, other, last);
      }
    }
  }

  /**
   * The issue-opened rule adds channel `c` exactly when the title opens with
   * `[c]` or `【c】`; when it adds anything it adds one channel and then
   * `待翻译`, and when no channel is named it adds nothing.
   */
  lemma OpeningLabelsSpec(title: string)
    ensures var labels := OpeningLabels(title);
      (labels == [] <==> forall i :: 0 <= i < |ChannelLabels| ==> !NamesChannel(title, ChannelLabels[i]))
      && (labels != [] ==> |labels| == 2 && NamesChannel(title, labels[0]) && IsChannelLabel(labels[0])
                           && labels[1] == ToTranslate)
      && (forall c :: IsChannelLabel(c) ==> (c in labels <==> NamesChannel(title, c)))
  {
    CatalogShape();
    var found := TitleChannels(ChannelLabels, title);
    TitleChannelsAtMostOne(ChannelLabels, title);
    forall c | IsChannelLabel(c)
      ensures c in found <==> NamesChannel(title, c)
    {
      TitleChannelsMembers(ChannelLabels, title, c);
    }
    if found != [] {
      TitleChannelsMembers(ChannelLabels, title, found[0]);
    } else {
      forall i | 0 <= i < |ChannelLabels|
        ensures !NamesChannel(title, ChannelLabels[i])
      {
        TitleChannelsMembers(ChannelLabels, title, ChannelLabels[i]);
      }
    }
  }
}
