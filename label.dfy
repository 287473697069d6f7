/**
 * The text label construction mode (modes/label.cc): the placeholders
 * "%0" … "%9" in a label's text, the split of that text into plain parts
 * and argument links, and the wizard's bookkeeping of the arguments the
 * user has picked for the placeholders.
 */
module Labels {

  predicate IsDigit(c: char) {
    '0' <= c <= '9'
  }

  /** The regular expression "%[0-9]" matches at position i. */
  predicate PlaceholderAt(s: string, i: int) {
    0 <= i && i + 1 < |s| && s[i] == '%' && IsDigit(s[i + 1])
  }

  /** A two-character placeholder token. */
  predicate IsPlaceholder(t: string) {
    |t| == 2 && t[0] == '%' && IsDigit(t[1])
  }

  /** QRegExp::search for "%[0-9]" from `from`: the first match at or after it, or -1. */
  function Search(s: string, from: nat): (r: int)
    ensures r == -1 || (from <= r && PlaceholderAt(s, r))
    ensures forall j :: from <= j && (r == -1 || j < r) ==> !PlaceholderAt(s, j)
    decreases |s| - from
  {
    if from + 1 >= |s| then -1
    else if PlaceholderAt(s, from) then from
    else Search(s, from + 1)
  }

  /**
   * The placeholders of s from position i on, matched left to right
   * without overlap: a match consumes its two characters.
   */
  function Placeholders(s: string, i: nat): nat
    decreases |s| - i
  {
    if i >= |s| then 0
    else if PlaceholderAt(s, i) then 1 + Placeholders(s, i + 2)
    else Placeholders(s, i + 1)
  }

  /** Positions without a match do not change the count. */
  lemma {:induction false} SkipToMatch(s: string, from: nat, p: nat)
    requires from <= p <= |s|
    requires forall j :: from <= j < p ==> !PlaceholderAt(s, j)
    ensures Placeholders(s, from) == Placeholders(s, p)
    decreases p - from
  {
    if from < p {
      SkipToMatch(s, from + 1, p);
    }
  }

  /** What one search tells about the count from where it started. */
  lemma SearchCounts(s: string, from: nat)
    ensures Search(s, from) == -1 ==> Placeholders(s, from) == 0
    ensures Search(s, from) != -1 ==>
      Placeholders(s, from) == 1 + Placeholders(s, Search(s, from) + 2)
  {
    var r := Search(s, from);
    if r == -1 {
      if from < |s| {
        SkipToMatch(s, from, |s|);
      }
    } else {
      SkipToMatch(s, from, r);
    }
  }

  /** A text has no placeholders exactly when "%[0-9]" matches nowhere in it. */
  lemma {:induction false} NoPlaceholders(s: string, from: nat)
    ensures Placeholders(s, from) == 0 <==> forall j :: from <= j ==> !PlaceholderAt(s, j)
    decreases |s| - from
  {
    if from < |s| {
      NoPlaceholders(s, from + 1);
      if !PlaceholderAt(s, from) {
        forall j | from <= j ensures !PlaceholderAt(s, j) <== Placeholders(s, from) == 0 {
        }
      }
    }
  }

  /** Each match takes two characters, so at most half the text is placeholders. */
  lemma {:induction false} PlaceholdersBound(s: string, from: nat)
    ensures 2 * Placeholders(s, from) <= |s| - from || from >= |s|
    decreases |s| - from
  {
    if from < |s| {
      if PlaceholderAt(s, from) {
        PlaceholdersBound(s, from + 2);
      } else {
        PlaceholdersBound(s, from + 1);
      }
    }
  }

  /** percentCount: repeated searches, each resuming after the previous match. */
  method PercentCount(s: string) returns (n: nat)
    ensures n == Placeholders(s, 0)
  {
    n := 0;
    var offset := Search(s, 0);
    SearchCounts(s, 0);
    while offset != -1
      invariant offset == -1 || PlaceholderAt(s, offset)
      invariant offset == -1 ==> n == Placeholders(s, 0)
      invariant offset != -1 ==> n + 1 + Placeholders(s, offset + 2) == Placeholders(s, 0)
      decreases if offset == -1 then 0 else |s| - offset + 1
    {
      n := n + 1;
      SearchCounts(s, offset + 2);
      offset := Search(s, offset + 2);
    }
  }

  // ---------------------------------------------------------------------
  // updateLinksLabel: text parts and links
  // ---------------------------------------------------------------------

  /** An argument picked for a placeholder: an object's property, or nothing yet. */
  datatype Argument = Unset | Picked(obj: nat, property: nat)

  /**
   * A piece of the links label: plain text, or the link standing for the
   * placeholder `token`, the `ordinal`-th of the text; a link shows its
   * argument's value when one is picked, and a numbered stub otherwise.
   */
  datatype Part = Text(text: string) | Link(ordinal: nat, token: string, picked: bool)

  /** The text the parts stand for: plain parts as they are, links as their placeholders. */
  function Spelled(parts: seq<Part>): string {
    if parts == [] then ""
    else
      var p := parts[|parts| - 1];
      Spelled(parts[..|parts| - 1]) + (if p.Text? then p.text else p.token)
  }

  function Links(parts: seq<Part>): (ls: seq<Part>)
    ensures forall k :: 0 <= k < |ls| ==> ls[k].Link?
  {
    if parts == [] then []
    else
      var p := parts[|parts| - 1];
      Links(parts[..|parts| - 1]) + (if p.Link? then [p] else [])
  }

  lemma Appended(parts: seq<Part>, p: Part)
    ensures Spelled(parts + [p]) == Spelled(parts) + (if p.Text? then p.text else p.token)
    ensures Links(parts + [p]) == Links(parts) + (if p.Link? then [p] else [])
  {
    assert (parts + [p])[..|parts|] == parts;
  }

  /** The k-th link stands for the k-th placeholder and shows whether argument k is picked. */
  predicate LinksNumbered(links: seq<Part>, args: seq<Argument>) {
    forall k :: 0 <= k < |links| ==>
      links[k].Link? && links[k].ordinal == k && IsPlaceholder(links[k].token) &&
      links[k].picked == (k < |args| && args[k].Picked?)
  }

  /** No plain part is empty. */
  predicate TextsNonEmpty(parts: seq<Part>) {
    forall k :: 0 <= k < |parts| && parts[k].Text? ==> parts[k].text != ""
  }

  /** The link for the match at `pos`, the `count`-th of the text. */
  function LinkAt(s: string, pos: nat, count: nat, args: seq<Argument>): Part
    requires pos + 2 <= |s|
  {
    Link(count, s[pos..pos + 2], count < |args| && args[count].Picked?)
  }

  /** Adding the plain stretch between the previous match and the next one. */
  lemma TextStep(parts: seq<Part>, s: string, prevpos: nat, pos: nat)
    requires prevpos < pos <= |s| && Spelled(parts) == s[..prevpos] && TextsNonEmpty(parts)
    ensures Spelled(parts + [Text(s[prevpos..pos])]) == s[..pos]
    ensures Links(parts + [Text(s[prevpos..pos])]) == Links(parts)
    ensures TextsNonEmpty(parts + [Text(s[prevpos..pos])])
  {
    Appended(parts, Text(s[prevpos..pos]));
    assert s[..prevpos] + s[prevpos..pos] == s[..pos];
    var ps := parts + [Text(s[prevpos..pos])];
    forall k | 0 <= k < |ps| && ps[k].Text? ensures ps[k].text != "" {
      if k < |parts| {
        assert ps[k] == parts[k];
      }
    }
  }

  /** Adding the link for the match at `pos`. */
  lemma LinkStep(parts: seq<Part>, s: string, pos: nat, args: seq<Argument>)
    requires PlaceholderAt(s, pos) && Spelled(parts) == s[..pos]
    requires LinksNumbered(Links(parts), args) && TextsNonEmpty(parts)
    ensures var ps := parts + [LinkAt(s, pos, |Links(parts)|, args)];
      Spelled(ps) == s[..pos + 2] && |Links(ps)| == |Links(parts)| + 1 &&
      LinksNumbered(Links(ps), args) && TextsNonEmpty(ps)
  {
    var link := LinkAt(s, pos, |Links(parts)|, args);
    Appended(parts, link);
    assert s[..pos] + s[pos..pos + 2] == s[..pos + 2];
    var ps := parts + [link];
    assert Links(ps) == Links(parts) + [link];
    forall k | 0 <= k < |ps| && ps[k].Text? ensures ps[k].text != "" {
      assert ps[k] == parts[k];
    }
  }

  /** The parts emitted for the text up to `upto`, holding `count` links. */
  predicate SplitUpTo(parts: seq<Part>, s: string, upto: nat, count: nat, args: seq<Argument>) {
    upto <= |s| && Spelled(parts) == s[..upto] && TextsNonEmpty(parts) &&
    count == |Links(parts)| && LinksNumbered(Links(parts), args)
  }

  /** One round of the split loop: the plain stretch before the match at `pos`, if any, then its link. */
  function Round(parts: seq<Part>, s: string, prevpos: nat, pos: nat, count: nat, args: seq<Argument>): seq<Part>
    requires prevpos <= pos && pos + 2 <= |s|
  {
    (if prevpos != pos then parts + [Text(s[prevpos..pos])] else parts) + [LinkAt(s, pos, count, args)]
  }

  lemma RoundStep(parts: seq<Part>, s: string, prevpos: nat, count: nat, args: seq<Argument>)
    requires SplitUpTo(parts, s, prevpos, count, args) && Search(s, prevpos) != -1
    ensures var pos := Search(s, prevpos);
      prevpos <= pos && pos + 2 <= |s| &&
      SplitUpTo(Round(parts, s, prevpos, pos, count, args), s, pos + 2, count + 1, args) &&
      Placeholders(s, prevpos) == 1 + Placeholders(s, pos + 2)
  {
    var pos := Search(s, prevpos);
    SearchCounts(s, prevpos);
    var mid := parts;
    if prevpos != pos {
      TextStep(parts, s, prevpos, pos);
      mid := parts + [Text(s[prevpos..pos])];
    }
    LinkStep(mid, s, pos, args);
  }

  /**
   * The split loop of updateLinksLabel: a plain part for each non-empty
   * stretch between matches, and one link per match.
   */
  method SplitLinks(s: string, args: seq<Argument>) returns (parts: seq<Part>)
    ensures Spelled(parts) == s
    ensures |Links(parts)| == Placeholders(s, 0)
    ensures LinksNumbered(Links(parts), args)
    ensures TextsNonEmpty(parts)
  {
    parts := [];
    var prevpos := 0;
    var count := 0;
    var pos := Search(s, 0);
    while pos != -1
      invariant SplitUpTo(parts, s, prevpos, count, args) && pos == Search(s, prevpos)
      invariant count + Placeholders(s, prevpos) == Placeholders(s, 0)
      decreases |s| - prevpos
    {
      RoundStep(parts, s, prevpos, count, args);
      parts := Round(parts, s, prevpos, pos, count, args);
      pos := pos + 2;
      prevpos := pos;
      count := count + 1;
      pos := Search(s, pos);
    }
    SearchCounts(s, prevpos);
    if prevpos != |s| {
      TextStep(parts, s, prevpos, |s|);
      parts := parts + [Text(s[prevpos..])];
    }
    assert s[..|s|] == s;
  }

  // ---------------------------------------------------------------------
  // The wizard's bookkeeping
  // ---------------------------------------------------------------------

  /** mwawd: what the mode waits for. */
  datatype Waiting = SelectingLocation | RequestingText | SelectingArgs | ReallySelectingArgs

  /** Every argument has been picked, and there is one per placeholder. */
  predicate Complete(args: seq<Argument>, s: string) {
    (forall k :: 0 <= k < |args| ==> args[k].Picked?) && |args| == Placeholders(s, 0)
  }

  /** What pressing Finish does: make a label, or refuse with a message. */
  datatype Finish = Created(text: string, args: seq<Argument>) | Refused

  class TextLabelMode {
    var args: seq<Argument>
    /** mlpc: the placeholder count the arguments were collected for. */
    var lastCount: nat
    var waiting: Waiting
    /** mwaaws: the argument being picked. */
    var picking: nat
    /** The wizard's switches that updateWiz sets. */
    var textNextEnabled: bool
    var textFinishEnabled: bool
    var argsPageAppropriate: bool
    var argsFinishEnabled: bool

    constructor()
      ensures args == [] && lastCount == 0 && waiting == SelectingLocation
    {
      args := [];
      lastCount := 0;
      waiting := SelectingLocation;
      picking := 0;
      textNextEnabled := false;
      textFinishEnabled := false;
      argsPageAppropriate := false;
      argsFinishEnabled := false;
    }

    /** The `finished &= valid()` loop over the arguments. */
    method AllPicked() returns (finished: bool)
      ensures finished <==> forall k :: 0 <= k < |args| ==> args[k].Picked?
    {
      finished := true;
      var k := 0;
      while k < |args|
        invariant 0 <= k <= |args|
        invariant finished <==> forall j :: 0 <= j < k ==> args[j].Picked?
      {
        finished := finished && args[k].Picked?;
        k := k + 1;
      }
    }

    /**
     * updateWiz for the label text `s`: the arguments are dropped when
     * the placeholder count changed; a text without placeholders can be
     * finished at once, otherwise the arguments page decides.
     */
    method UpdateWiz(s: string)
      modifies this
      ensures lastCount == Placeholders(s, 0)
      ensures args == if old(lastCount) == Placeholders(s, 0) then old(args) else []
      ensures waiting == old(waiting) && picking == old(picking)
      ensures Placeholders(s, 0) == 0 && s != "" ==>
        !textNextEnabled && textFinishEnabled && !argsPageAppropriate && argsFinishEnabled == old(argsFinishEnabled)
      ensures !(Placeholders(s, 0) == 0 && s != "") ==>
        textNextEnabled == (s != "") && !textFinishEnabled && argsPageAppropriate == (s != "") &&
        (argsFinishEnabled <==> Complete(args, s))
    {
      var count := PercentCount(s);
      if lastCount != count {
        args := [];
      }
      if count == 0 && s != "" {
        textNextEnabled := false;
        textFinishEnabled := true;
        argsPageAppropriate := false;
      } else {
        argsPageAppropriate := s != "";
        textNextEnabled := s != "";
        textFinishEnabled := false;
        var finished := AllPicked();
        finished := finished && count == |args|;
        argsFinishEnabled := finished;
      }
      lastCount := count;
    }

    /**
     * finishPressed. On the text page the text must hold no placeholder
     * and the label gets no arguments; on the arguments page the label is
     * made only when the arguments are complete.
     */
    method FinishPressed(s: string, onTextPage: bool) returns (r: Finish)
      requires onTextPage ==> Placeholders(s, 0) == 0
      ensures onTextPage ==> r == Created(s, [])
      ensures !onTextPage ==> (r.Created? <==> Complete(args, s))
      ensures !onTextPage && r.Created? ==> r == Created(s, args)
    {
      if onTextPage {
        return Created(s, []);
      }
      var finished := AllPicked();
      var count := PercentCount(s);
      finished := finished && count == |args|;
      if !finished {
        return Refused;
      }
      return Created(s, args);
    }

    /**
     * linkClicked(i): make room for argument i, keeping the arguments
     * already there, and wait for the user to pick it.
     */
    method LinkClicked(i: nat)
      modifies this
      ensures |args| == if |old(args)| > i + 1 then |old(args)| else i + 1
      ensures args[..|old(args)|] == old(args)
      ensures forall k :: |old(args)| <= k < |args| ==> args[k] == Unset
      ensures waiting == ReallySelectingArgs && picking == i
      ensures lastCount == old(lastCount)
      ensures textNextEnabled == old(textNextEnabled) && textFinishEnabled == old(textFinishEnabled)
      ensures argsPageAppropriate == old(argsPageAppropriate) && argsFinishEnabled == old(argsFinishEnabled)
    {
      if |args| < i + 1 {
        args := args + seq(i + 1 - |args|, _ => Unset);
      }
      waiting := ReallySelectingArgs;
      picking := i;
    }

    /** The user picked property `property` of object `obj` for the argument being picked. */
    method ArgumentPicked(obj: nat, property: nat)
      requires picking < |args|
      modifies this
      ensures args == old(args)[old(picking) := Picked(obj, property)]
      ensures waiting == old(waiting) && picking == old(picking) && lastCount == old(lastCount)
      ensures textNextEnabled == old(textNextEnabled) && textFinishEnabled == old(textFinishEnabled)
      ensures argsPageAppropriate == old(argsPageAppropriate) && argsFinishEnabled == old(argsFinishEnabled)
    {
      args := args[picking := Picked(obj, property)];
    }
  }
}
