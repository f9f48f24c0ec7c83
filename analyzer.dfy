/**
 * analyzeSelect: for every <select> of a document, in document order, a record of
 * its attributes, label, options and children, and the issues and successes it
 * gives rise to. Findings are tagged values carrying the 1-based select number.
 */
module SelectAnalyzer {
  import opened Wrappers
  import opened JsText
  import opened Dom
  import opened Seqs

  /** Shown as aria-labelledby text when no element has the referenced id. */
  const MissingReferenceText: string := "[요소를 찾을 수 없음]"

  /** How the label was found (labelType): not at all, by label[for=id], or as an enclosing label. */
  datatype LabelType = NotLabelled | ForAttribute | Enclosing

  /** The per-select record (selectInfo). */
  datatype SelectInfo = SelectInfo(
    index: nat,
    hasId: bool, id: string,
    hasName: bool, name: string,
    hasLabel: bool, labelText: string, labelType: LabelType,
    hasAriaLabel: bool, ariaLabelText: string,
    hasAriaLabelledby: bool, ariaLabelledbyText: string,
    isMultiple: bool, size: int, isRequired: bool, isDisabled: bool,
    hasForm: bool, formId: string,
    optionsCount: nat, optgroupsCount: nat,
    hasEmptyOption: bool, hasHrElements: bool,
    disabledOptionsCount: nat, optionsWithoutValue: nat)

  datatype Issue =
    | NoValidSelect
    | MissingLabel(select: nat)
    | MissingId(select: nat)
    | MissingName(select: nat)
    | ContainsHr(select: nat)
    | RequiredWithoutEmptyOption(select: nat)
    | OptionsWithoutValue(select: nat, count: nat)
    | NoOptions(select: nat)

  datatype Success =
    | LabelAssociated(select: nat, via: LabelType)
    | AriaLabelProvided(select: nat)
    | AriaLabelledbyAssociated(select: nat)
    | MultipleSelection(select: nat)
    | GroupedOptions(select: nat)

  datatype Results = Results(selects: seq<SelectInfo>, issues: seq<Issue>, successes: seq<Success>)

  // ---------------------------------------------------------------------------
  // Options (analyze.js:90-104)

  /** The option has no value attribute, or an empty one. */
  predicate HasNoValue(o: Element) {
    "value" !in o.attrs || o.attrs["value"] == ""
  }

  /** The option's text is blank or reads like a placeholder ("--", "선택"). */
  predicate LooksEmpty(o: Element) {
    var text := TextContent(o);
    Trim(text) == "" || Contains(text, "--") || Contains(text, "선택")
  }

  /** An empty / placeholder option: sets hasEmptyOption. */
  predicate IsPlaceholder(o: Element) {
    HasNoValue(o) && LooksEmpty(o)
  }

  /** A real choice without a value: counted in optionsWithoutValue. */
  predicate LacksValue(o: Element) {
    HasNoValue(o) && !LooksEmpty(o)
  }

  predicate HasValue(o: Element) {
    !HasNoValue(o)
  }

  predicate IsDisabledOption(o: Element) {
    "disabled" in o.attrs
  }

  /** select.querySelectorAll('option'). */
  function OptionsOf(select: Located): seq<Element> {
    Elements(WithTag(Descendants(select), "option"))
  }

  /** The three fields options.forEach updates: hasEmptyOption, optionsWithoutValue, disabledOptionsCount. */
  datatype OptionTally = OptionTally(hasEmptyOption: bool, optionsWithoutValue: nat, disabledOptionsCount: nat)

  /** What the forEach over options leaves in the three fields, starting from false, 0, 0. */
  function TallyOf(options: seq<Element>): OptionTally {
    OptionTally(Count(options, IsPlaceholder) > 0, Count(options, LacksValue), Count(options, IsDisabledOption))
  }

  /** Every option is exactly one of: valued, placeholder, value-less choice. */
  lemma {:induction false} OptionPartition(os: seq<Element>)
    ensures Count(os, LacksValue) + Count(os, IsPlaceholder) + Count(os, HasValue) == |os|
  {
    if os != [] {
      OptionPartition(os[..|os| - 1]);
    }
  }

  // ---------------------------------------------------------------------------
  // The record of one select, stated declaratively (analyze.js:22-112)

  /** parseInt(select.getAttribute('size')) || 1: NaN and 0 fall back to 1. */
  function SizeOf(select: Element): (size: int)
    ensures size != 0
  {
    // an absent attribute reads as null, which parseInt turns into NaN
    if "size" !in select.attrs then 1
    else match ParseInt(select.attrs["size"])
      case Some(v) => if v != 0 then v else 1
      case None => 1
  }

  lemma {:induction false} SizeOfNumeral(select: Element, n: nat)
    requires n > 0 && HasAttrValue(select, "size", DecimalString(n))
    ensures SizeOf(select) == n
  {
    ParseIntDecimal(n);
  }

  /** The label[for=id] lookup: made only for a present, non-empty id. */
  function ForLabel(doc: Element, select: Located): Option<Element> {
    var e := select.element;
    if "id" in e.attrs && e.attrs["id"] != "" then LabelFor(doc, e.attrs["id"]) else None
  }

  /** The enclosing label's trimmed text with the select's own trimmed text taken out once. */
  function EnclosingLabelText(enclosing: Element, select: Element): string {
    Trim(RemoveFirst(Trim(TextContent(enclosing)), Trim(TextContent(select))))
  }

  /** ariaLabelledbyText: the referenced element's trimmed text, a marker if it is missing, '' without a reference. */
  function AriaLabelledbyText(doc: Element, select: Element): string {
    var reference := Attr(select, "aria-labelledby");
    if reference == "" then ""
    else match GetElementById(doc, reference)
      case Some(target) => Trim(TextContent(target))
      case None => MissingReferenceText
  }

  /** The three label fields (hasLabel, labelText, labelType) a select ends up with. */
  datatype Labelling = Labelling(hasLabel: bool, labelText: string, labelType: LabelType)

  /** The label[for=id] match wins; otherwise the enclosing label; otherwise no label. */
  function LabelOf(doc: Element, select: Located): Labelling {
    var forLabel := ForLabel(doc, select);
    var enclosing := Closest(select, "label");
    if forLabel.Some? then Labelling(true, Trim(TextContent(forLabel.value)), ForAttribute)
    else if enclosing.Some? then Labelling(true, EnclosingLabelText(enclosing.value, select.element), Enclosing)
    else Labelling(false, "", NotLabelled)
  }

  function SelectInfoOf(doc: Element, select: Located, index: nat): SelectInfo {
    var e := select.element;
    var labelling := LabelOf(doc, select);
    var options := OptionsOf(select);
    var tally := TallyOf(options);
    var inside := Descendants(select);
    SelectInfo(
      index := index,
      hasId := "id" in e.attrs, id := Attr(e, "id"),
      hasName := "name" in e.attrs, name := Attr(e, "name"),
      hasLabel := labelling.hasLabel, labelText := labelling.labelText, labelType := labelling.labelType,
      hasAriaLabel := "aria-label" in e.attrs, ariaLabelText := Attr(e, "aria-label"),
      hasAriaLabelledby := "aria-labelledby" in e.attrs,
      ariaLabelledbyText := AriaLabelledbyText(doc, e),
      isMultiple := "multiple" in e.attrs, size := SizeOf(e),
      isRequired := "required" in e.attrs, isDisabled := "disabled" in e.attrs,
      hasForm := "form" in e.attrs, formId := Attr(e, "form"),
      optionsCount := |options|,
      optgroupsCount := |WithTag(inside, "optgroup")|,
      hasEmptyOption := tally.hasEmptyOption,
      hasHrElements := |WithTag(inside, "hr")| > 0,
      disabledOptionsCount := tally.disabledOptionsCount,
      optionsWithoutValue := tally.optionsWithoutValue)
  }

  /** The for-label is looked up only for a non-empty id and wins over an enclosing label. */
  lemma {:induction false} LabelPrecedence(doc: Element, select: Located, index: nat)
    ensures var info, e := SelectInfoOf(doc, select, index), select.element;
      && (info.labelType == ForAttribute
          <==> "id" in e.attrs && e.attrs["id"] != "" && LabelFor(doc, e.attrs["id"]).Some?)
      && (info.labelType == Enclosing <==> info.labelType != ForAttribute && Closest(select, "label").Some?)
      && (info.hasLabel <==> info.labelType != NotLabelled)
      && (info.labelType == ForAttribute ==> info.labelText == Trim(TextContent(ForLabel(doc, select).value)))
      && (info.labelType == Enclosing ==> info.labelText == EnclosingLabelText(Closest(select, "label").value, e))
      && (!info.hasLabel ==> info.labelText == "")
  {
  }

  /** ariaLabelledbyText: empty without a reference, the marker for a missing target, else the target's text. */
  lemma {:induction false} AriaLabelledbyCases(doc: Element, select: Located, index: nat)
    ensures var info, reference := SelectInfoOf(doc, select, index), Attr(select.element, "aria-labelledby");
      && (reference == "" ==> info.ariaLabelledbyText == "")
      && (reference != "" && GetElementById(doc, reference).None? ==> info.ariaLabelledbyText == MissingReferenceText)
      && (reference != "" && GetElementById(doc, reference).Some? ==>
            info.ariaLabelledbyText == Trim(TextContent(GetElementById(doc, reference).value)))
  {
  }

  /** The option counters of a record never exceed its option count. */
  lemma {:induction false} InfoCountBounds(doc: Element, select: Located, index: nat)
    ensures var info := SelectInfoOf(doc, select, index);
      && info.optionsWithoutValue + (if info.hasEmptyOption then 1 else 0) <= info.optionsCount
      && info.disabledOptionsCount <= info.optionsCount
  {
    OptionCountBounds(OptionsOf(select));
  }

  /** The counters never exceed the number of options; a placeholder is never also counted as value-less. */
  lemma {:induction false} OptionCountBounds(options: seq<Element>)
    ensures var t := TallyOf(options);
      && t.optionsWithoutValue + (if t.hasEmptyOption then 1 else 0) <= |options|
      && t.disabledOptionsCount <= |options|
  {
    OptionPartition(options);
  }

  /** Adding one option to the tally: a valued option changes neither the empty-option flag nor the value-less count. */
  lemma {:induction false} TallyOfSnoc(options: seq<Element>, o: Element)
    ensures var t, t' := TallyOf(options), TallyOf(options + [o]);
      && (HasValue(o) ==> t'.hasEmptyOption == t.hasEmptyOption && t'.optionsWithoutValue == t.optionsWithoutValue)
      && (IsPlaceholder(o) ==> t'.hasEmptyOption && t'.optionsWithoutValue == t.optionsWithoutValue)
      && (LacksValue(o) ==> t'.hasEmptyOption == t.hasEmptyOption && t'.optionsWithoutValue == t.optionsWithoutValue + 1)
      && t'.disabledOptionsCount == t.disabledOptionsCount + (if IsDisabledOption(o) then 1 else 0)
  {
    CountSnoc(options, o, IsPlaceholder);
    CountSnoc(options, o, LacksValue);
    CountSnoc(options, o, IsDisabledOption);
  }

  // ---------------------------------------------------------------------------
  // Findings of one select (analyze.js:115-155)

  /** s.push(x) when condition holds, s otherwise. */
  function Push<T>(s: seq<T>, condition: bool, x: T): seq<T> {
    if condition then s + [x] else s
  }

  lemma {:induction false} PushAppend<T>(s: seq<T>, t: seq<T>, condition: bool, x: T)
    ensures Push(s + t, condition, x) == s + Push(t, condition, x)
  {
    if condition {
      assert (s + t) + [x] == s + (t + [x]);
    }
  }

  lemma {:induction false} InPush<T>(s: seq<T>, condition: bool, x: T, y: T)
    ensures y in Push(s, condition, x) <==> y in s || (condition && y == x)
  {
  }

  lemma {:induction false} CountPush<T>(s: seq<T>, condition: bool, x: T, p: T -> bool)
    ensures Count(Push(s, condition, x), p) == Count(s, p) + (if condition && p(x) then 1 else 0)
  {
    if condition {
      CountSnoc(s, x, p);
    }
  }

  /** Pushing an element p rejects leaves the count unchanged, whether or not it is pushed. */
  lemma {:induction false} CountPushOther<T>(s: seq<T>, condition: bool, x: T, p: T -> bool)
    requires !p(x)
    ensures Count(Push(s, condition, x), p) == Count(s, p)
  {
    CountPush(s, condition, x, p);
  }

  /** At least one naming mechanism is present: a label, aria-label or aria-labelledby. */
  predicate HasLabelling(info: SelectInfo) {
    info.hasLabel || info.hasAriaLabel || info.hasAriaLabelledby
  }

  /** The success a named select reports: its label first, then aria-label, then aria-labelledby. */
  function LabelSuccess(info: SelectInfo): Success {
    if info.hasLabel then LabelAssociated(info.index, info.labelType)
    else if info.hasAriaLabel then AriaLabelProvided(info.index)
    else AriaLabelledbyAssociated(info.index)
  }

  /** The issue pushes for one record, in the order the rules run (analyze.js:115-151). */
  function PushIssues(issues: seq<Issue>, info: SelectInfo): seq<Issue> {
    var k := info.index;
    var s1 := Push(issues, !HasLabelling(info), MissingLabel(k));
    var s2 := Push(s1, !info.hasId, MissingId(k));
    var s3 := Push(s2, !info.hasName, MissingName(k));
    var s4 := Push(s3, info.hasHrElements, ContainsHr(k));
    var s5 := Push(s4, info.isRequired && !info.hasEmptyOption, RequiredWithoutEmptyOption(k));
    var s6 := Push(s5, info.optionsWithoutValue > 0, OptionsWithoutValue(k, info.optionsWithoutValue));
    Push(s6, info.optionsCount == 0, NoOptions(k))
  }

  /** The success pushes for one record, in the order the rules run (analyze.js:115-155). */
  function PushSuccesses(successes: seq<Success>, info: SelectInfo): seq<Success> {
    var k := info.index;
    var s1 := Push(successes, HasLabelling(info), LabelSuccess(info));
    var s2 := Push(s1, info.isMultiple, MultipleSelection(k));
    Push(s2, info.optgroupsCount > 0, GroupedOptions(k))
  }

  /** The issues one record gives rise to. */
  function IssuesFor(info: SelectInfo): seq<Issue> {
    PushIssues([], info)
  }

  /** The successes one record gives rise to. */
  function SuccessesFor(info: SelectInfo): seq<Success> {
    PushSuccesses([], info)
  }

  /** Pushing onto existing results appends the record's own findings. */
  lemma {:induction false} PushIssuesAppend(issues: seq<Issue>, info: SelectInfo)
    ensures PushIssues(issues, info) == issues + IssuesFor(info)
  {
    var k := info.index;
    var t0: seq<Issue> := [];
    var t1 := Push(t0, !HasLabelling(info), MissingLabel(k));
    var t2 := Push(t1, !info.hasId, MissingId(k));
    var t3 := Push(t2, !info.hasName, MissingName(k));
    var t4 := Push(t3, info.hasHrElements, ContainsHr(k));
    var t5 := Push(t4, info.isRequired && !info.hasEmptyOption, RequiredWithoutEmptyOption(k));
    var t6 := Push(t5, info.optionsWithoutValue > 0, OptionsWithoutValue(k, info.optionsWithoutValue));
    assert issues + t0 == issues;
    PushAppend(issues, t0, !HasLabelling(info), MissingLabel(k));
    PushAppend(issues, t1, !info.hasId, MissingId(k));
    PushAppend(issues, t2, !info.hasName, MissingName(k));
    PushAppend(issues, t3, info.hasHrElements, ContainsHr(k));
    PushAppend(issues, t4, info.isRequired && !info.hasEmptyOption, RequiredWithoutEmptyOption(k));
    PushAppend(issues, t5, info.optionsWithoutValue > 0, OptionsWithoutValue(k, info.optionsWithoutValue));
    PushAppend(issues, t6, info.optionsCount == 0, NoOptions(k));
  }

  lemma {:induction false} PushSuccessesAppend(successes: seq<Success>, info: SelectInfo)
    ensures PushSuccesses(successes, info) == successes + SuccessesFor(info)
  {
    var k := info.index;
    var t0: seq<Success> := [];
    var t1 := Push(t0, HasLabelling(info), LabelSuccess(info));
    var t2 := Push(t1, info.isMultiple, MultipleSelection(k));
    assert successes + t0 == successes;
    PushAppend(successes, t0, HasLabelling(info), LabelSuccess(info));
    PushAppend(successes, t1, info.isMultiple, MultipleSelection(k));
    PushAppend(successes, t2, info.optgroupsCount > 0, GroupedOptions(k));
  }

  /** Which issues the rules raise for a record, one case per kind of issue. */
  predicate Raised(info: SelectInfo, f: Issue) {
    match f
    case NoValidSelect => false
    case MissingLabel(k) => k == info.index && !HasLabelling(info)
    case MissingId(k) => k == info.index && !info.hasId
    case MissingName(k) => k == info.index && !info.hasName
    case ContainsHr(k) => k == info.index && info.hasHrElements
    case RequiredWithoutEmptyOption(k) => k == info.index && info.isRequired && !info.hasEmptyOption
    case OptionsWithoutValue(k, c) => k == info.index && info.optionsWithoutValue > 0 && c == info.optionsWithoutValue
    case NoOptions(k) => k == info.index && info.optionsCount == 0
  }

  /** Which successes the rules report for a record, one case per kind of success. */
  predicate Succeeded(info: SelectInfo, s: Success) {
    match s
    case LabelAssociated(k, via) => k == info.index && info.hasLabel && via == info.labelType
    case AriaLabelProvided(k) => k == info.index && !info.hasLabel && info.hasAriaLabel
    case AriaLabelledbyAssociated(k) =>
      k == info.index && !info.hasLabel && !info.hasAriaLabel && info.hasAriaLabelledby
    case MultipleSelection(k) => k == info.index && info.isMultiple
    case GroupedOptions(k) => k == info.index && info.optgroupsCount > 0
  }

  /** A record's issues are exactly those its rules raise. */
  lemma {:induction false} IssuesForRaised(info: SelectInfo)
    ensures forall f :: f in IssuesFor(info) <==> Raised(info, f)
  {
    IssueChainMembers(info.index, !HasLabelling(info), !info.hasId, !info.hasName, info.hasHrElements,
                      info.isRequired && !info.hasEmptyOption, info.optionsWithoutValue > 0, info.optionsCount == 0,
                      info.optionsWithoutValue);
  }

  /** The members of a chain of pushes shaped like PushIssues's, for any conditions. */
  lemma {:induction false} IssueChainMembers(k: nat, c1: bool, c2: bool, c3: bool, c4: bool, c5: bool, c6: bool, c7: bool, m: nat)
    ensures var chain :=
      Push(Push(Push(Push(Push(Push(Push([], c1, MissingLabel(k)), c2, MissingId(k)), c3, MissingName(k)),
        c4, ContainsHr(k)), c5, RequiredWithoutEmptyOption(k)), c6, OptionsWithoutValue(k, m)), c7, NoOptions(k));
      forall f :: (f in chain) <==> (
        || (c1 && f == MissingLabel(k)) || (c2 && f == MissingId(k)) || (c3 && f == MissingName(k))
        || (c4 && f == ContainsHr(k)) || (c5 && f == RequiredWithoutEmptyOption(k))
        || (c6 && f == OptionsWithoutValue(k, m)) || (c7 && f == NoOptions(k)))
  {
    var t0: seq<Issue> := [];
    var t1 := Push(t0, c1, MissingLabel(k));
    var t2 := Push(t1, c2, MissingId(k));
    var t3 := Push(t2, c3, MissingName(k));
    var t4 := Push(t3, c4, ContainsHr(k));
    var t5 := Push(t4, c5, RequiredWithoutEmptyOption(k));
    var t6 := Push(t5, c6, OptionsWithoutValue(k, m));
    forall f
      ensures (f in Push(t6, c7, NoOptions(k))) <==> (
        || (c1 && f == MissingLabel(k)) || (c2 && f == MissingId(k)) || (c3 && f == MissingName(k))
        || (c4 && f == ContainsHr(k)) || (c5 && f == RequiredWithoutEmptyOption(k))
        || (c6 && f == OptionsWithoutValue(k, m)) || (c7 && f == NoOptions(k)))
    {
      InPush(t0, c1, MissingLabel(k), f);
      InPush(t1, c2, MissingId(k), f);
      InPush(t2, c3, MissingName(k), f);
      InPush(t3, c4, ContainsHr(k), f);
      InPush(t4, c5, RequiredWithoutEmptyOption(k), f);
      InPush(t5, c6, OptionsWithoutValue(k, m), f);
      InPush(t6, c7, NoOptions(k), f);
    }
  }



  /** Every issue of a record is about that record's select. */
  lemma {:induction false} IssuesForAbout(info: SelectInfo)
    ensures forall f :: f in IssuesFor(info) ==> IssueIsAbout(f, info.index)
  {
    IssuesForRaised(info);
  }

  /** A record's successes are exactly those its rules report. */
  lemma {:induction false} SuccessesForSucceeded(info: SelectInfo)
    ensures forall s :: s in SuccessesFor(info) <==> Succeeded(info, s)
  {
  }

  /** Every success of a record is about that record's select. */
  lemma {:induction false} SuccessesForAbout(info: SelectInfo)
    ensures forall s :: s in SuccessesFor(info) ==> s.select == info.index
  {
    SuccessesForSucceeded(info);
  }

  /** The issue is about select k (every issue but "no valid select" names one). */
  predicate IssueIsAbout(f: Issue, k: nat) {
    !f.NoValidSelect? && f.select == k
  }

  function IssueAbout(k: nat): Issue -> bool {
    (f: Issue) => IssueIsAbout(f, k)
  }

  function SuccessAbout(k: nat): Success -> bool {
    (s: Success) => s.select == k
  }

  predicate IsLabelSuccess(s: Success) {
    s.LabelAssociated? || s.AriaLabelProvided? || s.AriaLabelledbyAssociated?
  }

  function IsMissingLabelFor(k: nat): Issue -> bool {
    (f: Issue) => f == MissingLabel(k)
  }

  function IsLabelSuccessFor(k: nat): Success -> bool {
    (s: Success) => IsLabelSuccess(s) && s.select == k
  }

  /** How many label verdicts (the missing-label issue or a label success) mention select k. */
  function LabelVerdicts(issues: seq<Issue>, successes: seq<Success>, k: nat): nat {
    Count(issues, IsMissingLabelFor(k)) + Count(successes, IsLabelSuccessFor(k))
  }

  /** Counting missing-label issues in a chain of pushes shaped like PushIssues's, for any conditions. */
  lemma {:induction false} MissingLabelChain(k: nat, c1: bool, c2: bool, c3: bool, c4: bool, c5: bool, c6: bool, c7: bool, m: nat)
    ensures Count(Push(Push(Push(Push(Push(Push(Push([], c1, MissingLabel(k)), c2, MissingId(k)), c3, MissingName(k)),
                  c4, ContainsHr(k)), c5, RequiredWithoutEmptyOption(k)), c6, OptionsWithoutValue(k, m)), c7, NoOptions(k)),
                  IsMissingLabelFor(k)) == if c1 then 1 else 0
  {
    var p := IsMissingLabelFor(k);
    var t0: seq<Issue> := [];
    var t1 := Push(t0, c1, MissingLabel(k));
    var t2 := Push(t1, c2, MissingId(k));
    var t3 := Push(t2, c3, MissingName(k));
    var t4 := Push(t3, c4, ContainsHr(k));
    var t5 := Push(t4, c5, RequiredWithoutEmptyOption(k));
    var t6 := Push(t5, c6, OptionsWithoutValue(k, m));
    CountPush(t0, c1, MissingLabel(k), p);
    CountPushOther(t1, c2, MissingId(k), p);
    CountPushOther(t2, c3, MissingName(k), p);
    CountPushOther(t3, c4, ContainsHr(k), p);
    CountPushOther(t4, c5, RequiredWithoutEmptyOption(k), p);
    CountPushOther(t5, c6, OptionsWithoutValue(k, m), p);
    CountPushOther(t6, c7, NoOptions(k), p);
  }

  /** A record has one missing-label issue when it has no naming mechanism, none otherwise. */
  lemma {:induction false} MissingLabelCount(info: SelectInfo)
    ensures Count(IssuesFor(info), IsMissingLabelFor(info.index)) == if HasLabelling(info) then 0 else 1
  {
    MissingLabelChain(info.index, !HasLabelling(info), !info.hasId, !info.hasName, info.hasHrElements,
                      info.isRequired && !info.hasEmptyOption, info.optionsWithoutValue > 0, info.optionsCount == 0,
                      info.optionsWithoutValue);
  }

  /** A record has one label success when it has a naming mechanism, none otherwise. */
  lemma {:induction false} LabelSuccessCount(info: SelectInfo)
    ensures Count(SuccessesFor(info), IsLabelSuccessFor(info.index)) == if HasLabelling(info) then 1 else 0
  {
    var k := info.index;
    var q := IsLabelSuccessFor(k);
    var u0: seq<Success> := [];
    var u1 := Push(u0, HasLabelling(info), LabelSuccess(info));
    var u2 := Push(u1, info.isMultiple, MultipleSelection(k));
    CountPush(u0, HasLabelling(info), LabelSuccess(info), q);
    CountPush(u1, info.isMultiple, MultipleSelection(k), q);
    CountPush(u2, info.optgroupsCount > 0, GroupedOptions(k), q);
  }

  /** Each record gets exactly one label verdict. */
  lemma {:induction false} OneLabelVerdict(info: SelectInfo)
    ensures LabelVerdicts(IssuesFor(info), SuccessesFor(info), info.index) == 1
  {
    MissingLabelCount(info);
    LabelSuccessCount(info);
  }

  // ---------------------------------------------------------------------------
  // The whole document (analyze.js:7-161)

  /** doc.querySelectorAll('select'). */
  function SelectsOf(doc: Element): seq<Located> {
    WithTag(DocumentOrder(doc), "select")
  }

  /** The record of every select, numbered from 1. */
  function InfosOf(doc: Element, selects: seq<Located>): (r: seq<SelectInfo>)
    ensures |r| == |selects|
  {
    seq(|selects|, k requires 0 <= k < |selects| => SelectInfoOf(doc, selects[k], k + 1))
  }

  lemma {:induction false} InfoAt(doc: Element, selects: seq<Located>, k: nat)
    requires k < |selects|
    ensures InfosOf(doc, selects)[k] == SelectInfoOf(doc, selects[k], k + 1)
  {
  }

  /** The records of the first n + 1 selects extend those of the first n by one. */
  lemma {:induction false} InfosPrefix(doc: Element, selects: seq<Located>, n: nat)
    requires n < |selects|
    ensures InfosOf(doc, selects)[..n + 1] == InfosOf(doc, selects)[..n] + [SelectInfoOf(doc, selects[n], n + 1)]
  {
    var infos := InfosOf(doc, selects);
    InfoAt(doc, selects, n);
    assert infos[..n + 1] == infos[..n] + [infos[n]];
  }

  /** The issues of each record, one record after another. */
  function AllIssues(infos: seq<SelectInfo>): seq<Issue> {
    if infos == [] then [] else AllIssues(infos[..|infos| - 1]) + IssuesFor(infos[|infos| - 1])
  }

  /** The successes of each record, one record after another. */
  function AllSuccesses(infos: seq<SelectInfo>): seq<Success> {
    if infos == [] then [] else AllSuccesses(infos[..|infos| - 1]) + SuccessesFor(infos[|infos| - 1])
  }

  /** One more record appends its own findings. */
  lemma {:induction false} FindingsSnoc(records: seq<SelectInfo>, info: SelectInfo)
    ensures AllIssues(records + [info]) == AllIssues(records) + IssuesFor(info)
    ensures AllSuccesses(records + [info]) == AllSuccesses(records) + SuccessesFor(info)
  {
    assert (records + [info])[..|records|] == records;
  }

  /** What analyzeSelect returns for doc. */
  function Analysis(doc: Element): Results {
    var selects := SelectsOf(doc);
    if |selects| == 0 then Results([], [NoValidSelect], [])
    else
      var infos := InfosOf(doc, selects);
      Results(infos, AllIssues(infos), AllSuccesses(infos))
  }

  /** Records numbered 1, 2, ... in order. */
  predicate Numbered(infos: seq<SelectInfo>) {
    forall j :: 0 <= j < |infos| ==> infos[j].index == j + 1
  }

  lemma {:induction false} InfosNumbered(doc: Element, selects: seq<Located>)
    ensures Numbered(InfosOf(doc, selects))
  {
    var infos := InfosOf(doc, selects);
    forall j | 0 <= j < |infos|
      ensures infos[j].index == j + 1
    {
      InfoAt(doc, selects, j);
    }
  }

  lemma {:induction false} IssuesBounded(infos: seq<SelectInfo>)
    requires Numbered(infos)
    ensures forall f :: f in AllIssues(infos) ==> !f.NoValidSelect? && 1 <= f.select <= |infos|
  {
    if infos != [] {
      IssuesBounded(infos[..|infos| - 1]);
      IssuesForRaised(infos[|infos| - 1]);
    }
  }

  lemma {:induction false} SuccessesBounded(infos: seq<SelectInfo>)
    requires Numbered(infos)
    ensures forall s :: s in AllSuccesses(infos) ==> 1 <= s.select <= |infos|
  {
    if infos != [] {
      SuccessesBounded(infos[..|infos| - 1]);
      SuccessesForSucceeded(infos[|infos| - 1]);
    }
  }

  /** The issues about the last select are the last record's own; none of the earlier records has any. */
  lemma {:induction false} IssuesOfLast(infos: seq<SelectInfo>)
    requires Numbered(infos) && |infos| > 0
    ensures var k := |infos|;
      && Filter(AllIssues(infos[..k - 1]), IssueAbout(k)) == []
      && Filter(IssuesFor(infos[k - 1]), IssueAbout(k)) == IssuesFor(infos[k - 1])
  {
    var k := |infos|;
    var init := infos[..k - 1];
    assert Numbered(init);
    IssuesBounded(init);
    FilterNone(AllIssues(init), IssueAbout(k));
    IssuesForAbout(infos[k - 1]);
    FilterAll(IssuesFor(infos[k - 1]), IssueAbout(k));
  }

  /** A record has no issues about any other select. */
  lemma {:induction false} IssuesOfOther(info: SelectInfo, k: nat)
    requires info.index != k
    ensures Filter(IssuesFor(info), IssueAbout(k)) == []
  {
    IssuesForAbout(info);
    FilterNone(IssuesFor(info), IssueAbout(k));
  }

  /** The issues about select k are exactly those of its own record, in emission order. */
  lemma {:induction false} IssuesOfSelect(infos: seq<SelectInfo>, k: nat)
    requires Numbered(infos) && 1 <= k <= |infos|
    ensures Filter(AllIssues(infos), IssueAbout(k)) == IssuesFor(infos[k - 1])
  {
    var init := infos[..|infos| - 1];
    var last := infos[|infos| - 1];
    assert AllIssues(infos) == AllIssues(init) + IssuesFor(last);
    FilterConcat(AllIssues(init), IssuesFor(last), IssueAbout(k));
    if k == |infos| {
      IssuesOfLast(infos);
      assert [] + IssuesFor(last) == IssuesFor(last);
    } else {
      assert Numbered(init) && init[k - 1] == infos[k - 1];
      IssuesOfSelect(init, k);
      IssuesOfOther(last, k);
      assert IssuesFor(infos[k - 1]) + [] == IssuesFor(infos[k - 1]);
    }
  }



  /** The successes about the last select are the last record's own; none of the earlier records has any. */
  lemma {:induction false} SuccessesOfLast(infos: seq<SelectInfo>)
    requires Numbered(infos) && |infos| > 0
    ensures var k := |infos|;
      && Filter(AllSuccesses(infos[..k - 1]), SuccessAbout(k)) == []
      && Filter(SuccessesFor(infos[k - 1]), SuccessAbout(k)) == SuccessesFor(infos[k - 1])
  {
    var k := |infos|;
    var init := infos[..k - 1];
    assert Numbered(init);
    SuccessesBounded(init);
    FilterNone(AllSuccesses(init), SuccessAbout(k));
    SuccessesForAbout(infos[k - 1]);
    FilterAll(SuccessesFor(infos[k - 1]), SuccessAbout(k));
  }

  /** A record has no successes about any other select. */
  lemma {:induction false} SuccessesOfOther(info: SelectInfo, k: nat)
    requires info.index != k
    ensures Filter(SuccessesFor(info), SuccessAbout(k)) == []
  {
    SuccessesForAbout(info);
    FilterNone(SuccessesFor(info), SuccessAbout(k));
  }

  /** The successes about select k are exactly those of its own record, in emission order. */
  lemma {:induction false} SuccessesOfSelect(infos: seq<SelectInfo>, k: nat)
    requires Numbered(infos) && 1 <= k <= |infos|
    ensures Filter(AllSuccesses(infos), SuccessAbout(k)) == SuccessesFor(infos[k - 1])
  {
    var init := infos[..|infos| - 1];
    var last := infos[|infos| - 1];
    assert AllSuccesses(infos) == AllSuccesses(init) + SuccessesFor(last);
    FilterConcat(AllSuccesses(init), SuccessesFor(last), SuccessAbout(k));
    if k == |infos| {
      SuccessesOfLast(infos);
      assert [] + SuccessesFor(last) == SuccessesFor(last);
    } else {
      assert Numbered(init) && init[k - 1] == infos[k - 1];
      SuccessesOfSelect(init, k);
      SuccessesOfOther(last, k);
      assert SuccessesFor(infos[k - 1]) + [] == SuccessesFor(infos[k - 1]);
    }
  }



  /** The "no valid select" issue is reported exactly when the document has no select, and then alone. */
  lemma {:induction false} NoSelectReport(doc: Element)
    ensures NoValidSelect in Analysis(doc).issues <==> |SelectsOf(doc)| == 0
    ensures |SelectsOf(doc)| == 0 ==> Analysis(doc) == Results([], [NoValidSelect], [])
  {
    var selects := SelectsOf(doc);
    if |selects| > 0 {
      InfosNumbered(doc, selects);
      IssuesBounded(InfosOf(doc, selects));
    }
  }

  /** One record per select, in document order, numbered from 1. */
  lemma {:induction false} RecordsInOrder(doc: Element, k: nat)
    requires k < |SelectsOf(doc)|
    ensures |Analysis(doc).selects| == |SelectsOf(doc)|
    ensures Analysis(doc).selects[k] == SelectInfoOf(doc, SelectsOf(doc)[k], k + 1)
    ensures Analysis(doc).selects[k].index == k + 1
  {
    var selects := SelectsOf(doc);
    InfoAt(doc, selects, k);
    InfosNumbered(doc, selects);
  }

  /** When there are selects, the results hold their records and those records' findings. */
  lemma {:induction false} AnalysisRecords(doc: Element)
    requires |SelectsOf(doc)| > 0
    ensures var r := Analysis(doc);
      && |r.selects| == |SelectsOf(doc)| && Numbered(r.selects)
      && r.issues == AllIssues(r.selects) && r.successes == AllSuccesses(r.selects)
  {
    InfosNumbered(doc, SelectsOf(doc));
  }

  /** An issue about record k is among all issues exactly when that record's rules raise it. */
  lemma {:induction false} IssuesPerRecord(infos: seq<SelectInfo>, k: nat)
    requires Numbered(infos) && 1 <= k <= |infos|
    ensures forall f :: IssueIsAbout(f, k) ==> (f in AllIssues(infos) <==> Raised(infos[k - 1], f))
  {
    IssuesOfSelect(infos, k);
    IssuesForRaised(infos[k - 1]);
    forall f | IssueIsAbout(f, k)
      ensures f in AllIssues(infos) <==> f in Filter(AllIssues(infos), IssueAbout(k))
    {
      FilterMembers(AllIssues(infos), IssueAbout(k), f);
    }
  }

  /** A success about record k is among all successes exactly when that record's rules report it. */
  lemma {:induction false} SuccessesPerRecord(infos: seq<SelectInfo>, k: nat)
    requires Numbered(infos) && 1 <= k <= |infos|
    ensures forall s: Success :: s.select == k ==> (s in AllSuccesses(infos) <==> Succeeded(infos[k - 1], s))
  {
    SuccessesOfSelect(infos, k);
    SuccessesForSucceeded(infos[k - 1]);
    forall s: Success | s.select == k
      ensures s in AllSuccesses(infos) <==> s in Filter(AllSuccesses(infos), SuccessAbout(k))
    {
      FilterMembers(AllSuccesses(infos), SuccessAbout(k), s);
    }
  }

  /** Record k gets exactly one label verdict among all findings. */
  lemma {:induction false} LabelVerdictPerRecord(infos: seq<SelectInfo>, k: nat)
    requires Numbered(infos) && 1 <= k <= |infos|
    ensures LabelVerdicts(AllIssues(infos), AllSuccesses(infos), k) == 1
  {
    var info := infos[k - 1];
    assert info.index == k;
    assert Count(AllIssues(infos), IsMissingLabelFor(k)) == Count(IssuesFor(info), IsMissingLabelFor(k)) by {
      IssuesOfSelect(infos, k);
      CountFilter(AllIssues(infos), IssueAbout(k), IsMissingLabelFor(k));
    }
    assert Count(AllSuccesses(infos), IsLabelSuccessFor(k)) == Count(SuccessesFor(info), IsLabelSuccessFor(k)) by {
      SuccessesOfSelect(infos, k);
      CountFilter(AllSuccesses(infos), SuccessAbout(k), IsLabelSuccessFor(k));
    }
    OneLabelVerdict(info);
  }

  /** Record k's label verdict among all findings: label > aria-label > aria-labelledby, exactly one. */
  lemma {:induction false} LabelRulePerRecord(infos: seq<SelectInfo>, k: nat)
    requires Numbered(infos) && 1 <= k <= |infos|
    ensures var issues, successes, info := AllIssues(infos), AllSuccesses(infos), infos[k - 1];
      && (MissingLabel(k) in issues <==> !HasLabelling(info))
      && (LabelAssociated(k, info.labelType) in successes <==> info.hasLabel)
      && (AriaLabelProvided(k) in successes <==> !info.hasLabel && info.hasAriaLabel)
      && (AriaLabelledbyAssociated(k) in successes
          <==> !info.hasLabel && !info.hasAriaLabel && info.hasAriaLabelledby)
      && LabelVerdicts(issues, successes, k) == 1
  {
    var info := infos[k - 1];
    IssuesPerRecord(infos, k);
    SuccessesPerRecord(infos, k);
    LabelVerdictPerRecord(infos, k);
    var successes := AllSuccesses(infos);
    assert IssueIsAbout(MissingLabel(k), k);
    assert LabelAssociated(k, info.labelType) in successes <==> Succeeded(info, LabelAssociated(k, info.labelType));
    assert AriaLabelProvided(k) in successes <==> Succeeded(info, AriaLabelProvided(k));
    assert AriaLabelledbyAssociated(k) in successes <==> Succeeded(info, AriaLabelledbyAssociated(k));
  }

  /** Record k's "required but no empty option" issue among all issues. */
  lemma {:induction false} RequiredRulePerRecord(infos: seq<SelectInfo>, k: nat)
    requires Numbered(infos) && 1 <= k <= |infos|
    ensures RequiredWithoutEmptyOption(k) in AllIssues(infos) <==> infos[k - 1].isRequired && !infos[k - 1].hasEmptyOption
  {
    IssuesPerRecord(infos, k);
    assert IssueIsAbout(RequiredWithoutEmptyOption(k), k);
  }

  /** Record k's "options without value" issue among all issues, with its count. */
  lemma {:induction false} ValuelessRulePerRecord(infos: seq<SelectInfo>, k: nat)
    requires Numbered(infos) && 1 <= k <= |infos|
    ensures var n := infos[k - 1].optionsWithoutValue;
      && (OptionsWithoutValue(k, n) in AllIssues(infos) <==> n > 0)
      && (forall c :: OptionsWithoutValue(k, c) in AllIssues(infos) ==> c == n)
  {
    IssuesPerRecord(infos, k);
    forall c | OptionsWithoutValue(k, c) in AllIssues(infos)
      ensures c == infos[k - 1].optionsWithoutValue
    {
      assert IssueIsAbout(OptionsWithoutValue(k, c), k);
    }
    assert IssueIsAbout(OptionsWithoutValue(k, infos[k - 1].optionsWithoutValue), k);
  }

  /** Select k gets exactly one label verdict, chosen label > aria-label > aria-labelledby. */
  lemma {:induction false} LabelVerdictPerSelect(doc: Element, k: nat)
    requires 1 <= k <= |SelectsOf(doc)|
    ensures var r := Analysis(doc); var info := r.selects[k - 1];
      && (MissingLabel(k) in r.issues <==> !HasLabelling(info))
      && (LabelAssociated(k, info.labelType) in r.successes <==> info.hasLabel)
      && (AriaLabelProvided(k) in r.successes <==> !info.hasLabel && info.hasAriaLabel)
      && (AriaLabelledbyAssociated(k) in r.successes
          <==> !info.hasLabel && !info.hasAriaLabel && info.hasAriaLabelledby)
      && LabelVerdicts(r.issues, r.successes, k) == 1
  {
    AnalysisRecords(doc);
    LabelRulePerRecord(Analysis(doc).selects, k);
  }

  /** "required but no empty option" is reported for select k exactly when that holds of its record. */
  lemma {:induction false} RequiredRulePerSelect(doc: Element, k: nat)
    requires 1 <= k <= |SelectsOf(doc)|
    ensures var r := Analysis(doc); var info := r.selects[k - 1];
      RequiredWithoutEmptyOption(k) in r.issues <==> info.isRequired && !info.hasEmptyOption
  {
    AnalysisRecords(doc);
    RequiredRulePerRecord(Analysis(doc).selects, k);
  }

  /** "N options without value" is reported for select k exactly when N > 0, and carries that N. */
  lemma {:induction false} ValuelessRulePerSelect(doc: Element, k: nat)
    requires 1 <= k <= |SelectsOf(doc)|
    ensures var r := Analysis(doc); var info := r.selects[k - 1];
      && (OptionsWithoutValue(k, info.optionsWithoutValue) in r.issues <==> info.optionsWithoutValue > 0)
      && (forall c :: OptionsWithoutValue(k, c) in r.issues ==> c == info.optionsWithoutValue)
  {
    AnalysisRecords(doc);
    ValuelessRulePerRecord(Analysis(doc).selects, k);
  }

  // ---------------------------------------------------------------------------
  // The imperative analysis

  /** One step of options.forEach (analyze.js:93-104). */
  method TallyOption(t: OptionTally, option: Element) returns (t': OptionTally)
    ensures HasValue(option) ==>
              t'.hasEmptyOption == t.hasEmptyOption && t'.optionsWithoutValue == t.optionsWithoutValue
    ensures IsPlaceholder(option) ==> t'.hasEmptyOption && t'.optionsWithoutValue == t.optionsWithoutValue
    ensures LacksValue(option) ==>
              t'.hasEmptyOption == t.hasEmptyOption && t'.optionsWithoutValue == t.optionsWithoutValue + 1
    ensures t'.disabledOptionsCount == t.disabledOptionsCount + (if IsDisabledOption(option) then 1 else 0)
  {
    t' := t;
    if "value" !in option.attrs || option.attrs["value"] == "" {
      var text := TextContent(option);
      if Trim(text) == "" || Contains(text, "--") || Contains(text, "선택") {
        t' := t'.(hasEmptyOption := true);
      } else {
        t' := t'.(optionsWithoutValue := t'.optionsWithoutValue + 1);
      }
    }
    if "disabled" in option.attrs {
      t' := t'.(disabledOptionsCount := t'.disabledOptionsCount + 1);
    }
  }

  /** options.forEach over all options of a select (analyze.js:93-104). */
  method TallyOptions(options: seq<Element>) returns (t: OptionTally)
    ensures t == TallyOf(options)
  {
    t := OptionTally(false, 0, 0);
    var i := 0;
    while i < |options|
      invariant i <= |options|
      invariant t == TallyOf(options[..i])
    {
      ghost var before := options[..i];
      t := TallyOption(t, options[i]);
      assert options[..i + 1] == before + [options[i]];
      TallyOfSnoc(before, options[i]);
      i := i + 1;
    }
    assert options[..i] == options;
  }

  /** ariaLabelledbyText: looked up only for a non-empty aria-labelledby (analyze.js:62-67). */
  method ResolveAriaLabelledby(doc: Element, e: Element) returns (text: string)
    ensures text == AriaLabelledbyText(doc, e)
  {
    text := "";
    var reference := Attr(e, "aria-labelledby");
    if reference != "" {
      var target := GetElementById(doc, reference);
      text := if target.Some? then Trim(TextContent(target.value)) else MissingReferenceText;
    }
  }

  /** The two label checks: label[for=id] for a present, non-empty id, then the enclosing label (analyze.js:69-87). */
  method ResolveLabel(doc: Element, select: Located, hasId: bool, id: string) returns (labelling: Labelling)
    requires hasId == ("id" in select.element.attrs) && id == Attr(select.element, "id")
    ensures labelling == LabelOf(doc, select)
  {
    labelling := Labelling(false, "", NotLabelled);
    if hasId && id != "" {
      var forLabel := LabelFor(doc, id);
      if forLabel.Some? {
        labelling := Labelling(true, Trim(TextContent(forLabel.value)), ForAttribute);
      }
    }
    if !labelling.hasLabel {
      var enclosing := Closest(select, "label");
      if enclosing.Some? {
        labelling := Labelling(true, EnclosingLabelText(enclosing.value, select.element), Enclosing);
      }
    }
  }

  /** Builds the record of one select section by section (analyze.js:22-112). */
  method BuildSelectInfo(doc: Element, select: Located, index: nat) returns (info: SelectInfo)
    ensures info == SelectInfoOf(doc, select, index)
  {
    var e := select.element;

    // attributes
    var hasId, id := "id" in e.attrs, Attr(e, "id");
    var hasName, name := "name" in e.attrs, Attr(e, "name");
    var isMultiple, size := "multiple" in e.attrs, SizeOf(e);
    var isRequired, isDisabled := "required" in e.attrs, "disabled" in e.attrs;
    var hasForm, formId := "form" in e.attrs, Attr(e, "form");

    // ARIA attributes
    var hasAriaLabel, ariaLabelText := "aria-label" in e.attrs, Attr(e, "aria-label");
    var hasAriaLabelledby := "aria-labelledby" in e.attrs;
    var ariaLabelledbyText := ResolveAriaLabelledby(doc, e);

    // labels
    var labelling := ResolveLabel(doc, select, hasId, id);

    // options
    var options := OptionsOf(select);
    var tally := TallyOptions(options);

    // optgroup and hr children
    var inside := Descendants(select);
    var optgroupsCount := |WithTag(inside, "optgroup")|;
    var hasHrElements := |WithTag(inside, "hr")| > 0;

    info := SelectInfo(
      index := index, hasId := hasId, id := id, hasName := hasName, name := name,
      hasLabel := labelling.hasLabel, labelText := labelling.labelText, labelType := labelling.labelType,
      hasAriaLabel := hasAriaLabel, ariaLabelText := ariaLabelText,
      hasAriaLabelledby := hasAriaLabelledby, ariaLabelledbyText := ariaLabelledbyText,
      isMultiple := isMultiple, size := size, isRequired := isRequired, isDisabled := isDisabled,
      hasForm := hasForm, formId := formId,
      optionsCount := |options|, optgroupsCount := optgroupsCount,
      hasEmptyOption := tally.hasEmptyOption, hasHrElements := hasHrElements,
      disabledOptionsCount := tally.disabledOptionsCount, optionsWithoutValue := tally.optionsWithoutValue);
  }

  /** The label verdict of one select: the missing-label issue or one label success (analyze.js:115-123). */
  method ReportLabel(info: SelectInfo, issues: seq<Issue>, successes: seq<Success>)
    returns (issues': seq<Issue>, successes': seq<Success>)
    ensures issues' == Push(issues, !HasLabelling(info), MissingLabel(info.index))
    ensures successes' == Push(successes, HasLabelling(info), LabelSuccess(info))
  {
    var k := info.index;
    issues', successes' := issues, successes;
    if !info.hasLabel && !info.hasAriaLabel && !info.hasAriaLabelledby {
      issues' := issues' + [MissingLabel(k)];
    } else if info.hasLabel {
      successes' := successes' + [LabelAssociated(k, info.labelType)];
    } else if info.hasAriaLabel {
      successes' := successes' + [AriaLabelProvided(k)];
    } else if info.hasAriaLabelledby {
      successes' := successes' + [AriaLabelledbyAssociated(k)];
    }
  }

  /** The pushes of one select's verdicts into results.issues and results.successes (analyze.js:115-155). */
  method Report(info: SelectInfo, issues: seq<Issue>, successes: seq<Success>)
    returns (issues': seq<Issue>, successes': seq<Success>)
    ensures issues' == PushIssues(issues, info)
    ensures successes' == PushSuccesses(successes, info)
  {
    var k := info.index;
    issues', successes' := ReportLabel(info, issues, successes);
    ghost var s1 := successes';
    ghost var i1 := issues';
    if !info.hasId {
      issues' := issues' + [MissingId(k)];
    }
    ghost var i2 := issues';
    assert i2 == Push(i1, !info.hasId, MissingId(k));
    if !info.hasName {
      issues' := issues' + [MissingName(k)];
    }
    ghost var i3 := issues';
    assert i3 == Push(i2, !info.hasName, MissingName(k));
    if info.hasHrElements {
      issues' := issues' + [ContainsHr(k)];
    }
    ghost var i4 := issues';
    assert i4 == Push(i3, info.hasHrElements, ContainsHr(k));
    if info.isRequired && !info.hasEmptyOption {
      issues' := issues' + [RequiredWithoutEmptyOption(k)];
    }
    ghost var i5 := issues';
    assert i5 == Push(i4, info.isRequired && !info.hasEmptyOption, RequiredWithoutEmptyOption(k));
    if info.optionsWithoutValue > 0 {
      issues' := issues' + [OptionsWithoutValue(k, info.optionsWithoutValue)];
    }
    ghost var i6 := issues';
    assert i6 == Push(i5, info.optionsWithoutValue > 0, OptionsWithoutValue(k, info.optionsWithoutValue));
    if info.optionsCount == 0 {
      issues' := issues' + [NoOptions(k)];
    }
    assert issues' == Push(i6, info.optionsCount == 0, NoOptions(k));
    if info.isMultiple {
      successes' := successes' + [MultipleSelection(k)];
    }
    ghost var s2 := successes';
    assert s2 == Push(s1, info.isMultiple, MultipleSelection(k));
    if info.optgroupsCount > 0 {
      successes' := successes' + [GroupedOptions(k)];
    }
    assert successes' == Push(s2, info.optgroupsCount > 0, GroupedOptions(k));
  }

  /**
   * The forEach callback for the select at position index: build its record, push its findings
   * and the record (analyze.js:21-158).
   */
  method AnalyzeOne(doc: Element, select: Located, index: nat, records: seq<SelectInfo>,
                    issues: seq<Issue>, successes: seq<Success>)
    returns (records': seq<SelectInfo>, issues': seq<Issue>, successes': seq<Success>)
    requires issues == AllIssues(records) && successes == AllSuccesses(records)
    ensures records' == records + [SelectInfoOf(doc, select, index + 1)]
    ensures issues' == AllIssues(records') && successes' == AllSuccesses(records')
  {
    var info := BuildSelectInfo(doc, select, index + 1);
    PushIssuesAppend(issues, info);
    PushSuccessesAppend(successes, info);
    issues', successes' := Report(info, issues, successes);
    records' := records + [info];
    FindingsSnoc(records, info);
  }

  /** analyzeSelect(doc) (analyze.js:7-161). */
  method AnalyzeSelect(doc: Element) returns (r: Results)
    ensures r == Analysis(doc)
  {
    var selects := SelectsOf(doc);
    if |selects| == 0 {
      return Results([], [NoValidSelect], []);
    }
    ghost var infos := InfosOf(doc, selects);
    var records: seq<SelectInfo> := [];
    var issues: seq<Issue> := [];
    var successes: seq<Success> := [];
    var n := 0;
    while n < |selects|
      invariant n <= |selects|
      invariant records == infos[..n]
      invariant issues == AllIssues(records) && successes == AllSuccesses(records)
    {
      InfosPrefix(doc, selects, n);
      records, issues, successes := AnalyzeOne(doc, selects[n], n, records, issues, successes);
      n := n + 1;
    }
    assert infos[..n] == infos;
    r := Results(records, issues, successes);
  }
}
