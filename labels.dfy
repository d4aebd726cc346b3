/**
 * Label lists as the tracker keeps them per issue or pull (in order), the two
 * label writes the bot issues (add labels, remove one label), and the effect of
 * a status transition: every status label removed, then the new one added.
 */
module LabelLists {
  import opened Catalog

  /** The labels of issue `n`; an issue the store does not hold has none. */
  function LabelsOf(store: map<nat, seq<string>>, n: nat): seq<string> {
    if n in store then store[n] else []
  }

  /** Removing a label: every occurrence goes, the rest keep their order; absent is a no-op. */
  function Without(labels: seq<string>, name: string): (r: seq<string>)
    ensures forall x :: x in r <==> x in labels && x != name
    ensures name !in labels ==> r == labels
    decreases |labels|
  {
    if |labels| == 0 then []
    else (if labels[0] == name then [] else [labels[0]]) + Without(labels[1..], name)
  }

  lemma {:induction false} WithoutAppend(a: seq<string>, b: seq<string>, name: string)
    ensures Without(a + b, name) == Without(a, name) + Without(b, name)
  {
    if a == [] {
      assert a + b == b;
    } else {
      assert (a + b)[1..] == a[1..] + b;
      WithoutAppend(a[1..], b, name);
    }
  }

  /** Adding one label: appended unless already present. */
  function WithLabel(labels: seq<string>, name: string): (r: seq<string>)
    ensures name in r
    ensures forall x :: x in r <==> x in labels || x == name
    ensures StartsWithSeq(r, labels)
  {
    if name in labels then labels else labels + [name]
  }

  predicate StartsWithSeq(s: seq<string>, prefix: seq<string>) {
    |prefix| <= |s| && s[..|prefix|] == prefix
  }

  /** Adding several labels in order, each appended unless already present. */
  function WithLabels(labels: seq<string>, names: seq<string>): (r: seq<string>)
    ensures forall x :: x in r <==> x in labels || x in names
    ensures StartsWithSeq(r, labels)
    decreases |names|
  {
    if |names| == 0 then labels
    else WithLabels(WithLabel(labels, names[0]), names[1..])
  }

  /** The labels that are not status labels, in their original order. */
  function NonStatus(labels: seq<string>): seq<string>
    decreases |labels|
  {
    if |labels| == 0 then []
    else (if IsStatusLabel(labels[0]) then [] else [labels[0]]) + NonStatus(labels[1..])
  }

  /** The status labels, in their original order. */
  function StatusOf(labels: seq<string>): seq<string>
    decreases |labels|
  {
    if |labels| == 0 then []
    else (if IsStatusLabel(labels[0]) then [labels[0]] else []) + StatusOf(labels[1..])
  }

  /** The label list after a status transition to `status`. */
  function WithStatus(labels: seq<string>, status: string): seq<string>
    requires IsStatusLabel(status)
  {
    NonStatus(labels) + [status]
  }

  lemma {:induction false} NonStatusAppend(a: seq<string>, b: seq<string>)
    ensures NonStatus(a + b) == NonStatus(a) + NonStatus(b)
  {
    if a == [] {
      assert a + b == b;
    } else {
      assert (a + b)[1..] == a[1..] + b;
      NonStatusAppend(a[1..], b);
    }
  }

  lemma {:induction false} StatusOfAppend(a: seq<string>, b: seq<string>)
    ensures StatusOf(a + b) == StatusOf(a) + StatusOf(b)
  {
    if a == [] {
      assert a + b == b;
    } else {
      assert (a + b)[1..] == a[1..] + b;
      StatusOfAppend(a[1..], b);
    }
  }

  lemma {:induction false} NonStatusHasNoStatus(labels: seq<string>)
    ensures StatusOf(NonStatus(labels)) == []
    ensures NonStatus(NonStatus(labels)) == NonStatus(labels)
    decreases |labels|
  {
    if labels != [] {
      var head := if IsStatusLabel(labels[0]) then [] else [labels[0]];
      NonStatusHasNoStatus(labels[1..]);
      StatusOfAppend(head, NonStatus(labels[1..]));
      NonStatusAppend(head, NonStatus(labels[1..]));
    }
  }

  lemma NonStatusMembers(labels: seq<string>, x: string)
    ensures x in NonStatus(labels) <==> x in labels && !IsStatusLabel(x)
    decreases |labels|
  {
    if labels != [] {
      NonStatusMembers(labels[1..], x);
    }
  }

  /**
   * After a transition to `status` the issue holds exactly one status label,
   * `status`, and keeps every other label in its original order.
   */
  lemma WithStatusSpec(labels: seq<string>, status: string)
    requires IsStatusLabel(status)
    ensures StatusOf(WithStatus(labels, status)) == [status]
    ensures NonStatus(WithStatus(labels, status)) == NonStatus(labels)
    ensures forall x :: x in WithStatus(labels, status) && IsStatusLabel(x) ==> x == status
  {
    NonStatusHasNoStatus(labels);
    StatusOfAppend(NonStatus(labels), [status]);
    NonStatusAppend(NonStatus(labels), [status]);
    forall x | x in WithStatus(labels, status) && IsStatusLabel(x)
      ensures x == status
    {
      NonStatusMembers(labels, x);
    }
  }

  /** Dropping the status labels keeps the first channel label. */
  lemma {:induction false} NonStatusKeepsChannel(labels: seq<string>)
    ensures FirstChannel(NonStatus(labels)) == FirstChannel(labels)
    decreases |labels|
  {
    if |labels| > 0 {
      var head := if IsStatusLabel(labels[0]) then [] else [labels[0]];
      assert labels == [labels[0]] + labels[1..];
      NonStatusKeepsChannel(labels[1..]);
      FirstChannelAppend(head, NonStatus(labels[1..]));
      FirstChannelAppend([labels[0]], labels[1..]);
      CatalogShape();
      if IsStatusLabel(labels[0]) {
        assert FirstChannel([labels[0]]).None?;
      }
    }
  }

  /** A status transition never changes which channel an issue belongs to. */
  lemma WithStatusKeepsChannel(labels: seq<string>, status: string)
    requires IsStatusLabel(status)
    ensures FirstChannel(WithStatus(labels, status)) == FirstChannel(labels)
  {
    NonStatusKeepsChannel(labels);
    FirstChannelAppend(NonStatus(labels), [status]);
    CatalogShape();
    assert FirstChannel([status]).None?;
  }

  /** Adding a label that is not a status label leaves the status labels as they were. */
  lemma WithLabelKeepsStatus(labels: seq<string>, name: string)
    requires !IsStatusLabel(name)
    ensures StatusOf(WithLabel(labels, name)) == StatusOf(labels)
  {
    if name !in labels {
      StatusOfAppend(labels, [name]);
      assert StatusOf([name]) == [] + StatusOf([name][1..]);
    }
  }

  /** A second transition to the same status changes nothing. */
  lemma WithStatusIdempotent(labels: seq<string>, status: string)
    requires IsStatusLabel(status)
    ensures WithStatus(WithStatus(labels, status), status) == WithStatus(labels, status)
  {
    WithStatusSpec(labels, status);
  }

  /**
   * The labels left once every status label listed in `removed` has been
   * removed: the intermediate state of the removal loop.
   */
  function DropStatusIn(labels: seq<string>, removed: seq<string>): seq<string>
    decreases |labels|
  {
    if |labels| == 0 then []
    else (if IsStatusLabel(labels[0]) && labels[0] in removed then [] else [labels[0]])
         + DropStatusIn(labels[1..], removed)
  }

  lemma {:induction false} DropStatusInNone(labels: seq<string>)
    ensures DropStatusIn(labels, []) == labels
    decreases |labels|
  {
    if labels != [] {
      DropStatusInNone(labels[1..]);
    }
  }

  /** Removing one more status label extends the removed list by it. */
  lemma {:induction false} DropStatusInStep(labels: seq<string>, removed: seq<string>, x: string)
    ensures IsStatusLabel(x) ==> Without(DropStatusIn(labels, removed), x) == DropStatusIn(labels, removed + [x])
    ensures !IsStatusLabel(x) ==> DropStatusIn(labels, removed) == DropStatusIn(labels, removed + [x])
    decreases |labels|
  {
    if labels != [] {
      DropStatusInStep(labels[1..], removed, x);
      var head := if IsStatusLabel(labels[0]) && labels[0] in removed then [] else [labels[0]];
      WithoutAppend(head, DropStatusIn(labels[1..], removed), x);
    }
  }

  /** Once every label of the list is in `removed`, exactly the status labels are gone. */
  lemma {:induction false} DropStatusInAll(labels: seq<string>, removed: seq<string>)
    requires forall x :: x in labels ==> x in removed
    ensures DropStatusIn(labels, removed) == NonStatus(labels)
    decreases |labels|
  {
    if labels != [] {
      assert forall x :: x in labels[1..] ==> x in labels;
      DropStatusInAll(labels[1..], removed);
    }
  }
}
