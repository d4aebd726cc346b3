/**
 * Resolving a pull to its task from free text: the `#<digits>` tokens of a
 * text in textual order (the matches of the global pattern `/#\d+/g`), the
 * first of them whose issue carries a channel label, and the search over a
 * pull's body and comments.
 */
module References {
  import opened Wrappers
  import opened Strings
  import opened Catalog
  import opened LabelLists

  /**
   * The issue numbers the pattern `/#\d+/g` finds in `s`, left to right: a `#`
   * followed by the maximal run of digits, read as a decimal number; scanning
   * resumes after the run.
   */
  function Tokens(s: string): seq<nat>
    decreases |s|
  {
    if |s| == 0 then []
    else if s[0] == '#' && 1 < |s| && IsDigit(s[1]) then
      var k := DigitRun(s[1..]);
      assert s[1..][..k] == s[1..1 + k];
      [ParseDecimal(s[1..1 + k])] + Tokens(s[1 + k..])
    else Tokens(s[1..])
  }

  /** Text without a `#` contributes no token, wherever it stands. */
  lemma {:induction false} TokensSkip(a: string, b: string)
    requires '#' !in a
    ensures Tokens(a + b) == Tokens(b)
    decreases |a|
  {
    if a == [] {
      assert a + b == b;
    } else {
      assert (a + b)[1..] == a[1..] + b;
      assert forall x :: x in a[1..] ==> x in a;
      TokensSkip(a[1..], b);
    }
  }

  /** A `#n` written out followed by a non-digit is read back as the token `n`. */
  lemma TokensLead(n: nat, rest: string)
    requires rest == [] || !IsDigit(rest[0])
    ensures Tokens("#" + Decimal(n) + rest) == [n] + Tokens(rest)
  {
    var d := Decimal(n);
    var s := "#" + d + rest;
    assert s[1..] == d + rest;
    DigitRunOfDigits(d, rest);
    assert s[1..1 + |d|] == d;
    assert s[1 + |d|..] == rest;
    ParseDecimalOfDecimal(n);
  }

  /** Whether issue `n` currently carries a channel label. */
  predicate HasChannel(store: map<nat, seq<string>>, n: nat) {
    FirstChannel(LabelsOf(store, n)).Some?
  }

  /** Position of the first token whose issue carries a channel label. */
  function FirstLabelledIndex(tokens: seq<nat>, store: map<nat, seq<string>>): (r: Option<nat>)
    ensures r.Some? ==> r.value < |tokens| && HasChannel(store, tokens[r.value])
    ensures r.Some? ==> forall j :: 0 <= j < r.value ==> !HasChannel(store, tokens[j])
    ensures r.None? ==> forall j :: 0 <= j < |tokens| ==> !HasChannel(store, tokens[j])
    decreases |tokens|
  {
    if |tokens| == 0 then None
    else if HasChannel(store, tokens[0]) then Some(0)
    else match FirstLabelledIndex(tokens[1..], store)
      case None => None
      case Some(i) => Some(i + 1)
  }

  /** `getSubtitleIssueNumberFromComment`: the first mentioned issue that has a channel label. */
  function ReferenceIn(text: string, store: map<nat, seq<string>>): Option<nat> {
    var tokens := Tokens(text);
    match FirstLabelledIndex(tokens, store)
    case None => None
    case Some(i) => Some(tokens[i])
  }

  /**
   * The reference found in a text is a mention of an issue with a channel
   * label, every earlier mention names an issue without one, and there is no
   * reference only when no mention qualifies.
   */
  lemma ReferenceInSpec(text: string, store: map<nat, seq<string>>)
    ensures ReferenceIn(text, store).None? <==>
              forall j :: 0 <= j < |Tokens(text)| ==> !HasChannel(store, Tokens(text)[j])
    ensures ReferenceIn(text, store).Some? ==>
              exists i :: 0 <= i < |Tokens(text)| && Tokens(text)[i] == ReferenceIn(text, store).value
                          && HasChannel(store, Tokens(text)[i])
                          && forall j :: 0 <= j < i ==> !HasChannel(store, Tokens(text)[j])
  {
    var tokens := Tokens(text);
    match FirstLabelledIndex(tokens, store)
    case None =>
    case Some(i) =>
      assert ReferenceIn(text, store) == Some(tokens[i]);
      assert HasChannel(store, tokens[i]);
      assert i < |Tokens(text)|;
      assert !(forall j :: 0 <= j < |Tokens(text)| ==> !HasChannel(store, Tokens(text)[j]));
      assert !ReferenceIn(text, store).None?;
  }

  /** A mention with a channel label and no qualifying mention before it is the reference. */
  lemma ReferenceInIsFirst(text: string, store: map<nat, seq<string>>, i: nat)
    requires i < |Tokens(text)| && HasChannel(store, Tokens(text)[i])
    requires forall j :: 0 <= j < i ==> !HasChannel(store, Tokens(text)[j])
    ensures ReferenceIn(text, store) == Some(Tokens(text)[i])
  {
    var r := FirstLabelledIndex(Tokens(text), store);
    assert r.Some?;
    assert !(r.value < i);
    assert !(i < r.value);
  }

  /** JavaScript truthiness of a resolved issue number: `null` and `0` are falsy. */
  predicate Truthy(r: Option<nat>) {
    r.Some? && r.value != 0
  }

  /**
   * `getSubtitleIssueNumber` as written: the body first; otherwise, because the
   * comment scan is not awaited and a pending Promise is truthy, the loop returns
   * on its first iteration with whatever the first comment resolves to.
   */
  function HistoryReferenceAsWritten(body: string, comments: seq<string>, store: map<nat, seq<string>>): Option<nat> {
    var r := ReferenceIn(body, store);
    if Truthy(r) then r
    else if |comments| == 0 then None
    else ReferenceIn(comments[0], store)
  }

  /** The first truthy reference among `texts`, taken in order. */
  function FirstTextReference(texts: seq<string>, store: map<nat, seq<string>>): (r: Option<nat>)
    ensures r.None? || Truthy(r)
    ensures r.None? <==> forall j :: 0 <= j < |texts| ==> !Truthy(ReferenceIn(texts[j], store))
    decreases |texts|
  {
    if |texts| == 0 then None
    else
      var r := ReferenceIn(texts[0], store);
      if Truthy(r) then r else FirstTextReference(texts[1..], store)
  }

  lemma FirstTextReferenceCons(text: string, rest: seq<string>, store: map<nat, seq<string>>)
    ensures FirstTextReference([text] + rest, store) ==
              if Truthy(ReferenceIn(text, store)) then ReferenceIn(text, store) else FirstTextReference(rest, store)
  {
    assert ([text] + rest)[1..] == rest;
  }

  /** One step of the in-order scan: from position `i`, either text `i` decides or the scan moves on. */
  lemma FirstTextReferenceStep(texts: seq<string>, store: map<nat, seq<string>>, i: nat)
    requires i < |texts|
    ensures FirstTextReference(texts[i..], store) ==
              if Truthy(ReferenceIn(texts[i], store)) then ReferenceIn(texts[i], store)
              else FirstTextReference(texts[i + 1..], store)
  {
    assert texts[i..][1..] == texts[i + 1..];
  }

  /** `getSubtitleIssueNumber` as its comment describes it: the body, then each comment in order. */
  function HistoryReference(body: string, comments: seq<string>, store: map<nat, seq<string>>): Option<nat> {
    FirstTextReference([body] + comments, store)
  }

  /** The intended search returns the reference of the first text that has a truthy one. */
  lemma {:induction false} FirstTextReferenceIsFirst(texts: seq<string>, store: map<nat, seq<string>>, i: nat)
    requires i < |texts| && Truthy(ReferenceIn(texts[i], store))
    requires forall j :: 0 <= j < i ==> !Truthy(ReferenceIn(texts[j], store))
    ensures FirstTextReference(texts, store) == ReferenceIn(texts[i], store)
    decreases i
  {
    if i > 0 {
      assert !Truthy(ReferenceIn(texts[0], store));
      FirstTextReferenceIsFirst(texts[1..], store, i - 1);
    }
  }

  /** Where the body resolves, or the pull has at most one comment, both searches agree for the caller. */
  lemma HistoryReferenceAgrees(body: string, comments: seq<string>, store: map<nat, seq<string>>)
    requires Truthy(ReferenceIn(body, store)) || |comments| <= 1
    ensures Truthy(HistoryReferenceAsWritten(body, comments, store)) <==> Truthy(HistoryReference(body, comments, store))
    ensures Truthy(HistoryReference(body, comments, store)) ==>
              HistoryReferenceAsWritten(body, comments, store) == HistoryReference(body, comments, store)
  {
    FirstTextReferenceCons(body, comments, store);
    if |comments| == 1 {
      assert comments == [comments[0]] + [];
      FirstTextReferenceCons(comments[0], [], store);
    }
  }

  /**
   * The missing `await`: a pull whose body names no task (say `thanks`),
   * whose first comment names none either and whose second comment is `#n`
   * for a labelled task `n` resolves to nothing as written, while the
   * intended search finds `n`.
   */
  lemma HistoryReferenceAsWrittenMissesLaterComments(store: map<nat, seq<string>>, body: string, first: string, n: nat)
    requires '#' !in body && '#' !in first
    requires HasChannel(store, n) && n != 0
    ensures HistoryReferenceAsWritten(body, [first, "#" + Decimal(n)], store) == None
    ensures HistoryReference(body, [first, "#" + Decimal(n)], store) == Some(n)
  {
    var second := "#" + Decimal(n);
    NoMarkNoReference(body, store);
    NoMarkNoReference(first, store);
    assert second + "" == second;
    TokensLead(n, "");
    ReferenceInIsFirst(second, store, 0);
    FirstTextReferenceCons(body, [first, second], store);
    FirstTextReferenceCons(first, [second], store);
    FirstTextReferenceCons(second, [], store);
    assert [first, second] == [first] + [second];
    assert [second] == [second] + [];
  }

  /** A text without `#` names no issue. */
  lemma NoMarkNoReference(text: string, store: map<nat, seq<string>>)
    requires '#' !in text
    ensures ReferenceIn(text, store) == None
  {
    TokensSkip(text, "");
    assert text + "" == text;
    assert Tokens("") == [];
  }

  /** The tokens of a text with two mentions separated by `#`-free, non-digit text. */
  lemma TokensOfTwoMentions(a: string, m: nat, b: string, n: nat, c: string)
    requires '#' !in a && '#' !in b && '#' !in c
    requires b != [] && !IsDigit(b[0])
    requires c == [] || !IsDigit(c[0])
    ensures Tokens(a + ("#" + Decimal(m) + (b + ("#" + Decimal(n) + c)))) == [m, n]
  {
    var second := "#" + Decimal(n) + c;
    var afterFirst := b + second;
    var first := "#" + Decimal(m) + afterFirst;
    TokensSkip(c, []);
    assert c + [] == c;
    TokensLead(n, c);
    assert Tokens(second) == [n];
    TokensSkip(b, second);
    assert Tokens(afterFirst) == [n];
    TokensLead(m, afterFirst);
    assert Tokens(first) == [m, n];
    TokensSkip(a, first);
  }

  /**
   * With two mentions, as in "see #5 and #9": when only the second issue has a
   * channel label it is the reference; when both have one, the first wins.
   */
  lemma ReferenceOfTwoMentions(a: string, m: nat, b: string, n: nat, c: string, store: map<nat, seq<string>>)
    requires '#' !in a && '#' !in b && '#' !in c
    requires b != [] && !IsDigit(b[0])
    requires c == [] || !IsDigit(c[0])
    requires HasChannel(store, n)
    ensures var text := a + ("#" + Decimal(m) + (b + ("#" + Decimal(n) + c)));
      && (!HasChannel(store, m) ==> ReferenceIn(text, store) == Some(n))
      && (HasChannel(store, m) ==> ReferenceIn(text, store) == Some(m))
  {
    var text := a + ("#" + Decimal(m) + (b + ("#" + Decimal(n) + c)));
    TokensOfTwoMentions(a, m, b, n, c);
    if HasChannel(store, m) {
      ReferenceInIsFirst(text, store, 0);
    } else {
      ReferenceInIsFirst(text, store, 1);
    }
  }
}
