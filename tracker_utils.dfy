/** src/analytics/analyticsHelpers/interactionTrackerUtils.ts: selector
    validation, selector matching against an element and its ancestors,
    event classification and target formatting. The browser's selector
    engine is a parameter; `console.warn` output is returned as a list of
    warning messages, one per `console.warn` call, in order. */
module TrackerUtils {
  import opened Base
  import opened Text
  import opened Payload

  /** An event target: the parts of an `HTMLElement` the helpers read, and
      its parent chain for `closest`. */
  datatype Element = Element(
    tagName: string,
    textContent: Option<string>,
    href: Option<string>,
    outerHTML: string,
    parent: Option<Element>)

  /** The browser's CSS selector engine: whether a selector string parses
      (otherwise `querySelector` and `closest` throw a SyntaxError) and
      whether a parsed selector matches a given element. */
  datatype SelectorEngine = SelectorEngine(
    parses: string -> bool,
    matches: (string, Element) -> bool)

  /** An entry of a selector list as the host may pass it: despite the
      declared `string[]`, `null` and `undefined` entries occur. */
  datatype RawSelector = NullSelector | UndefinedSelector | SelectorText(text: string) {
    /** `${sel}` in a template string. */
    function Display(): string
    {
      match this
      case NullSelector => "null"
      case UndefinedSelector => "undefined"
      case SelectorText(s) => s
    }
  }

  /** A computed value together with the `console.warn` messages emitted
      while computing it. */
  datatype Warned<T> = Warned(value: T, warnings: seq<string>)

  const SyntaxWarningPrefix: string := "Invalid selector syntax provided: "
  const MatchWarningPrefix: string := "Invalid selector provided: "

  /** The filter condition of validateAndFilterSelectors: a string that is
      not blank after `trim` and that the selector engine parses. */
  predicate Acceptable(sel: RawSelector, engine: SelectorEngine)
  {
    sel.SelectorText? && Trim(sel.text) != "" && engine.parses(sel.text)
  }

  function SyntaxWarning(sel: RawSelector): string
  {
    SyntaxWarningPrefix + sel.Display()
  }

  /** `validateAndFilterSelectors(selectors)`. */
  function ValidateAndFilterSelectors(sels: seq<RawSelector>, engine: SelectorEngine): (r: Warned<seq<string>>)
    ensures |r.value| + |r.warnings| == |sels|
    ensures forall k :: 0 <= k < |r.value| ==> Acceptable(SelectorText(r.value[k]), engine)
    ensures forall w :: w in r.warnings ==>
      exists sel :: sel in sels && !Acceptable(sel, engine) && w == SyntaxWarning(sel)
  {
    if sels == [] then Warned([], [])
    else
      var rest := ValidateAndFilterSelectors(sels[1..], engine);
      assert forall i :: 0 <= i < |sels[1..]| ==> sels[1..][i] == sels[i + 1];
      if Acceptable(sels[0], engine) then
        var r := Warned([sels[0].text] + rest.value, rest.warnings);
        assert forall k :: 1 <= k < |r.value| ==> r.value[k] == rest.value[k - 1];
        r
      else
        Warned(rest.value, [SyntaxWarning(sels[0])] + rest.warnings)
  }

  /** Lifts accepted selector strings back to list entries. */
  function AsEntries(ss: seq<string>): (r: seq<RawSelector>)
    ensures |r| == |ss|
    ensures forall k :: 0 <= k < |ss| ==> r[k] == SelectorText(ss[k])
  {
    seq(|ss|, k requires 0 <= k < |ss| => SelectorText(ss[k]))
  }

  /** `a` is `b` with some entries removed, the rest in their original order. */
  predicate IsSubsequence<T(==)>(a: seq<T>, b: seq<T>)
    decreases |b|
  {
    if b == [] then a == []
    else (a != [] && a[0] == b[0] && IsSubsequence(a[1..], b[1..])) || IsSubsequence(a, b[1..])
  }

  /** The number of entries the filter condition accepts. */
  function AcceptedCount(sels: seq<RawSelector>, engine: SelectorEngine): nat
  {
    if sels == [] then 0
    else (if Acceptable(sels[0], engine) then 1 else 0) + AcceptedCount(sels[1..], engine)
  }

  /** One syntax warning for each entry the filter condition rejects, in
      list order; accepted entries cause none. */
  function RejectedWarnings(sels: seq<RawSelector>, engine: SelectorEngine): seq<string>
  {
    if sels == [] then []
    else (if Acceptable(sels[0], engine) then [] else [SyntaxWarning(sels[0])]) + RejectedWarnings(sels[1..], engine)
  }

  /** The result keeps the input's order, keeps one string for each
      accepted entry (so, with the ensures above, exactly the accepted
      entries), and warns exactly once for each rejected entry, in order. */
  lemma {:induction false} FilterKeepsAcceptedInOrder(sels: seq<RawSelector>, engine: SelectorEngine)
    ensures IsSubsequence(AsEntries(ValidateAndFilterSelectors(sels, engine).value), sels)
    ensures |ValidateAndFilterSelectors(sels, engine).value| == AcceptedCount(sels, engine)
    ensures ValidateAndFilterSelectors(sels, engine).warnings == RejectedWarnings(sels, engine)
    ensures |ValidateAndFilterSelectors(sels, engine).warnings| == |sels| - AcceptedCount(sels, engine)
  {
    if sels != [] {
      FilterKeepsAcceptedInOrder(sels[1..], engine);
      var rest := ValidateAndFilterSelectors(sels[1..], engine);
      if Acceptable(sels[0], engine) {
        assert AsEntries([sels[0].text] + rest.value)[1..] == AsEntries(rest.value);
      }
    }
  }

  /** A list in which every entry is acceptable comes back unchanged and
      without warnings; in particular the empty list. */
  lemma {:induction false} FilterKeepsValidList(ss: seq<string>, engine: SelectorEngine)
    requires forall k :: 0 <= k < |ss| ==> Acceptable(SelectorText(ss[k]), engine)
    ensures ValidateAndFilterSelectors(AsEntries(ss), engine) == Warned(ss, [])
  {
    if ss != [] {
      var entries := AsEntries(ss);
      assert entries[0] == SelectorText(ss[0]) && Acceptable(entries[0], engine);
      assert entries[1..] == AsEntries(ss[1..]);
      FilterKeepsValidList(ss[1..], engine);
      assert [ss[0]] + ss[1..] == ss;
    }
  }

  /** Filtering is idempotent: filtering the result again changes nothing
      and warns about nothing. */
  lemma FilterIdempotent(sels: seq<RawSelector>, engine: SelectorEngine)
    ensures var once := ValidateAndFilterSelectors(sels, engine).value;
            ValidateAndFilterSelectors(AsEntries(once), engine) == Warned(once, [])
  {
    FilterKeepsValidList(ValidateAndFilterSelectors(sels, engine).value, engine);
  }

  /** The element and its ancestors, nearest first. */
  function SelfAndAncestors(e: Element): (r: seq<Element>)
    ensures |r| >= 1 && r[0] == e
    decreases e
  {
    match e.parent
    case None => [e]
    case Some(p) => [e] + SelfAndAncestors(p)
  }

  /** `target.closest(sel)` for a selector that parses: the nearest of the
      element and its ancestors that the selector matches. */
  function Closest(sel: string, e: Element, engine: SelectorEngine): (r: Option<Element>)
    ensures r.Some? ==> engine.matches(sel, r.value) && r.value in SelfAndAncestors(e)
    decreases e
  {
    if engine.matches(sel, e) then Some(e)
    else
      match e.parent
      case None => None
      case Some(p) => Closest(sel, p, engine)
  }

  /** `closest` finds an element exactly when the selector matches the
      element itself or one of its ancestors. */
  lemma {:induction false} ClosestFindsAnyMatchingAncestor(sel: string, e: Element, engine: SelectorEngine)
    ensures Closest(sel, e, engine).Some? <==>
      exists a :: a in SelfAndAncestors(e) && engine.matches(sel, a)
    decreases e
  {
    if !engine.matches(sel, e) && e.parent.Some? {
      ClosestFindsAnyMatchingAncestor(sel, e.parent.value, engine);
    }
  }

  /** Whether one selector applies to the element, in the sense of the
      source's comment: it parses and matches the element or an ancestor. */
  ghost predicate Applies(sel: string, e: Element, engine: SelectorEngine)
  {
    engine.parses(sel) && exists a :: a in SelfAndAncestors(e) && engine.matches(sel, a)
  }

  /** Whether `target.closest(sel)` is tried without throwing and finds an element. */
  predicate Hits(sel: string, e: Element, engine: SelectorEngine)
  {
    engine.parses(sel) && Closest(sel, e, engine).Some?
  }

  /** The index of the first selector that hits, or `|sels|` when none does. */
  function FirstHit(sels: seq<string>, e: Element, engine: SelectorEngine): (i: nat)
    ensures i <= |sels|
    ensures forall k :: 0 <= k < i ==> !Hits(sels[k], e, engine)
    ensures i < |sels| ==> Hits(sels[i], e, engine)
  {
    if sels == [] then 0
    else if Hits(sels[0], e, engine) then 0
    else
      var j := FirstHit(sels[1..], e, engine);
      assert forall k :: 1 <= k < 1 + j ==> sels[k] == sels[1..][k - 1];
      1 + j
  }

  /** One "Invalid selector provided" warning for each selector that does
      not parse, in list order. */
  function ThrowWarnings(sels: seq<string>, engine: SelectorEngine): seq<string>
  {
    if sels == [] then []
    else (if engine.parses(sels[0]) then [] else [MatchWarningPrefix + sels[0]]) + ThrowWarnings(sels[1..], engine)
  }

  /** At most one warning per selector, each naming a selector that does not parse. */
  lemma {:induction false} ThrowWarningsOnlyUnparsable(sels: seq<string>, engine: SelectorEngine)
    ensures |ThrowWarnings(sels, engine)| <= |sels|
    ensures forall w :: w in ThrowWarnings(sels, engine) ==>
      exists sel :: sel in sels && !engine.parses(sel) && w == MatchWarningPrefix + sel
  {
    if sels != [] {
      ThrowWarningsOnlyUnparsable(sels[1..], engine);
      assert forall sel :: sel in sels[1..] ==> sel in sels;
    }
  }

  /** `elementCheck(selectors, target)`: `some` over the list; a selector
      whose `closest` call throws counts as no match and warns; the walk
      stops at the first match. */
  function ElementCheck(sels: seq<string>, target: Element, engine: SelectorEngine): (r: Warned<bool>)
    ensures r.value <==> exists i :: 0 <= i < |sels| && Applies(sels[i], target, engine)
    ensures (forall i :: 0 <= i < |sels| ==> engine.parses(sels[i])) ==> r.warnings == []
    ensures r.value <==> FirstHit(sels, target, engine) < |sels|
    ensures r.warnings == ThrowWarnings(sels[..FirstHit(sels, target, engine)], engine)
  {
    if sels == [] then Warned(false, [])
    else
      var rest := ElementCheck(sels[1..], target, engine);
      assert forall i :: 0 <= i < |sels[1..]| ==> sels[1..][i] == sels[i + 1];
      var j := FirstHit(sels[1..], target, engine);
      assert Hits(sels[0], target, engine) || sels[..1 + j][1..] == sels[1..][..j];
      if !engine.parses(sels[0]) then
        Warned(rest.value, [MatchWarningPrefix + sels[0]] + rest.warnings)
      else
        ClosestFindsAnyMatchingAncestor(sels[0], target, engine);
        if Closest(sels[0], target, engine).Some? then Warned(true, [])
        else rest
  }

  /** The walk stops at the first match: an unparsable selector after a
      matching one is never tried, one before it warns. */
  lemma ElementCheckStopsAtFirstMatch(target: Element, engine: SelectorEngine)
    requires engine.parses("button") && !engine.parses("##invalid") && engine.matches("button", target)
    ensures ElementCheck(["button", "##invalid"], target, engine) == Warned(true, [])
    ensures ElementCheck(["##invalid", "button"], target, engine)
         == Warned(true, ["Invalid selector provided: ##invalid"])
  {
    var later := ["button", "##invalid"];
    var earlier := ["##invalid", "button"];
    assert Hits(later[0], target, engine);
    assert earlier[1..] == ["button"] && Hits(earlier[1..][0], target, engine);
    assert FirstHit(earlier, target, engine) == 1;
    assert earlier[..1] == ["##invalid"];
    assert ThrowWarnings(earlier[..1], engine) == [MatchWarningPrefix + "##invalid"];
    assert MatchWarningPrefix + "##invalid" == "Invalid selector provided: ##invalid";
  }

  /** Selectors that passed validation never throw at match time, so
      checking them warns about nothing. */
  lemma {:induction false} ValidatedSelectorsNeverWarn(sels: seq<RawSelector>, target: Element, engine: SelectorEngine)
    ensures ElementCheck(ValidateAndFilterSelectors(sels, engine).value, target, engine).warnings == []
  {
    var kept := ValidateAndFilterSelectors(sels, engine).value;
    assert forall i :: 0 <= i < |kept| ==> Acceptable(SelectorText(kept[i]), engine);
  }

  /** Case-insensitive tag comparison, as `tagName.toLowerCase() === tag`
      for a lower-case `tag`. */
  predicate TagIs(e: Element, tag: string)
  {
    ToLowerAscii(e.tagName) == tag
  }

  /** `mapEventType(domEventType, target)`. */
  function MapEventType(domEventType: string, target: Element): (r: EventType)
    ensures r == Link <==> domEventType == "click" && TagIs(target, "a")
    ensures r == Navigation <==> domEventType == "click" && TagIs(target, "button")
    ensures r == UserInput <==>
      (domEventType == "click" && (TagIs(target, "input") || TagIs(target, "textarea") || TagIs(target, "select")))
      || domEventType == "change" || domEventType == "input"
    ensures r == Error <==> domEventType == "error"
    ensures r != Outbound && r != Inbound
  {
    var tag := ToLowerAscii(target.tagName);
    if domEventType == "click" then
      if tag == "a" then Link
      else if tag == "button" then Navigation
      else if tag == "input" || tag == "textarea" || tag == "select" then UserInput
      else Other
    else if domEventType == "change" || domEventType == "input" then UserInput
    else if domEventType == "error" then Error
    else Other
  }

  /** Classification ignores the letter case of the tag name. */
  lemma MapEventTypeIgnoresTagCase(domEventType: string, target: Element)
    ensures MapEventType(domEventType, target)
         == MapEventType(domEventType, target.(tagName := ToLowerAscii(target.tagName)))
  {
    ToLowerIdempotent(target.tagName);
  }

  /** `formatTarget(eventType, target)`: for the label `Link`, the trimmed
      text and the `href` attribute in angle brackets (missing ones read as
      empty); for any other label, the element's `outerHTML`. */
  function FormatTarget(eventType: string, target: Element): string
  {
    if eventType == "Link" then
      Trim(target.textContent.GetOr("")) + " <" + target.href.GetOr("") + ">"
    else
      target.outerHTML
  }

  /** Any label but `Link` gives the markup unchanged. For `Link`, the
      target is the element's text with only surrounding whitespace
      removed (so it neither starts nor ends with whitespace), a space, and
      the `href` in angle brackets; all-whitespace text gives " <…>". */
  lemma FormatTargetShape(kind: string, target: Element)
    ensures kind != "Link" ==> FormatTarget(kind, target) == target.outerHTML
    ensures var text := target.textContent.GetOr("");
            var r := FormatTarget("Link", target);
            var t := Trim(text);
            && r[..|t|] == t
            && r[|t|..] == " <" + target.href.GetOr("") + ">"
            && (exists i, j :: 0 <= i <= j <= |text| && t == text[i..j] && AllWhitespace(text[..i]) && AllWhitespace(text[j..]))
            && (t == [] || (!IsWhitespace(t[0]) && !IsWhitespace(t[|t| - 1])))
            && (AllWhitespace(text) ==> StartsWith(r, " <"))
  {
    var text := target.textContent.GetOr("");
    TrimIsInnerSlice(text);
    TrimEmptyIffBlank(text);
  }
}
