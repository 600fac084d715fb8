/**
 * The landing page's section visibility (services/ui/src/pages/LandingPage.tsx).
 *
 * An intersection observer reports entries for the page's three sections.
 * Its callback folds them into the `visibleSections` record: it copies the
 * current record, writes each tagged entry's `isIntersecting` under the
 * target's `data-section-id`, and returns the very same record when no entry
 * differed. Section elements are registered through ref callbacks that tag
 * them and keep the observer's watch list up to date; each section fades in
 * when visible. The pricing cards link to the register page with their plan
 * name.
 */
module LandingPage {
  import opened Wrappers

  datatype SectionId = Hero | Pricing | GetStarted

  const SectionIds: seq<SectionId> := [Hero, Pricing, GetStarted]

  /** The `data-section-id` value and record key of a section. */
  function SectionKey(s: SectionId): string {
    match s
    case Hero => "hero"
    case Pricing => "pricing"
    case GetStarted => "get-started"
  }

  predicate IsSectionKey(key: string) {
    key == "hero" || key == "pricing" || key == "get-started"
  }

  /** `Record<SectionId, boolean>`, keyed by the attribute string the callback
      reads (the cast to `SectionId` checks nothing). */
  type Visibility = map<string, bool>

  function InitialVisibility(): (v: Visibility)
    ensures forall s :: SectionKey(s) in v && (v[SectionKey(s)] <==> s == Hero)
    ensures forall key | key in v :: IsSectionKey(key)
  {
    map["hero" := true, "pricing" := false, "get-started" := false]
  }

  /** An observer entry: the target's `data-section-id` attribute (`None` for
      `null`) and whether it intersects. */
  datatype Entry = Entry(sectionAttr: Option<string>, isIntersecting: bool)

  /** The key an entry writes; an absent or empty attribute is skipped. */
  function KeyOf(e: Entry): Option<string> {
    if e.sectionAttr.Some? && e.sectionAttr.value != "" then e.sectionAttr else None
  }

  /** `next[id] !== entry.isIntersecting` for a tagged entry; a missing key
      reads as `undefined`, which differs from every boolean. */
  predicate Differs(v: Visibility, e: Entry) {
    KeyOf(e).Some? && (KeyOf(e).value !in v || v[KeyOf(e).value] != e.isIntersecting)
  }

  /** The record after one entry. */
  function ApplyEntry(v: Visibility, e: Entry): (r: Visibility)
    ensures KeyOf(e).Some? ==> r == v[KeyOf(e).value := e.isIntersecting]
    ensures KeyOf(e).None? ==> r == v
  {
    if Differs(v, e) then v[KeyOf(e).value := e.isIntersecting] else v
  }

  /** The record after the entries, in order. */
  function Applied(current: Visibility, entries: seq<Entry>): (r: Visibility)
    ensures current.Keys <= r.Keys
    ensures forall key | key in r && key !in current :: LastFor(entries, key) == Some(r[key])
    decreases |entries|
  {
    if entries == [] then current
    else ApplyEntry(Applied(current, entries[..|entries| - 1]), entries[|entries| - 1])
  }

  /** Whether some entry differed from the record at its turn (the loop's
      `changed` flag). */
  predicate AnyChange(current: Visibility, entries: seq<Entry>)
    decreases |entries|
  {
    entries != [] &&
    (AnyChange(current, entries[..|entries| - 1])
     || Differs(Applied(current, entries[..|entries| - 1]), entries[|entries| - 1]))
  }

  /** The last tagged entry for `key`, if any. */
  function LastFor(entries: seq<Entry>, key: string): Option<bool>
    decreases |entries|
  {
    if entries == [] then None
    else if KeyOf(entries[|entries| - 1]) == Some(key) then Some(entries[|entries| - 1].isIntersecting)
    else LastFor(entries[..|entries| - 1], key)
  }

  // ---------------------------------------------------------------------
  // The reducer
  // ---------------------------------------------------------------------

  /** When no entry differed, the record's value is the current one. */
  lemma {:induction false} NoChangeKeepsValue(current: Visibility, entries: seq<Entry>)
    requires !AnyChange(current, entries)
    ensures Applied(current, entries) == current
    decreases |entries|
  {
    if entries != [] {
      NoChangeKeepsValue(current, entries[..|entries| - 1]);
    }
  }

  /** The last entry for a section wins; a section without entries keeps its
      previous value. */
  lemma {:induction false} LastEntryWins(current: Visibility, entries: seq<Entry>, key: string)
    ensures LastFor(entries, key).Some? ==>
      key in Applied(current, entries) && Applied(current, entries)[key] == LastFor(entries, key).value
    ensures LastFor(entries, key).None? ==>
      (key in Applied(current, entries) <==> key in current)
      && (key in current ==> Applied(current, entries)[key] == current[key])
    decreases |entries|
  {
    if entries != [] {
      LastEntryWins(current, entries[..|entries| - 1], key);
    }
  }

  /** The observer callback's updater `setVisibleSections((current) => …)`:
      `sameRecord` says whether it returned `current` itself. */
  method ReduceVisibility(current: Visibility, entries: seq<Entry>) returns (result: Visibility, sameRecord: bool)
    ensures result == Applied(current, entries)
    ensures sameRecord <==> !AnyChange(current, entries)
    ensures sameRecord ==> result == current
  {
    var changed := false;
    var next := current;
    for i := 0 to |entries|
      invariant next == Applied(current, entries[..i])
      invariant changed == AnyChange(current, entries[..i])
    {
      assert entries[..i + 1][..i] == entries[..i];
      var entry := entries[i];
      var id := entry.sectionAttr;
      if id.None? || id.value == "" {
        continue;
      }
      if id.value !in next || next[id.value] != entry.isIntersecting {
        next := next[id.value := entry.isIntersecting];
        changed := true;
      }
    }
    assert entries[..|entries|] == entries;
    if changed {
      result, sameRecord := next, false;
    } else {
      NoChangeKeepsValue(current, entries);
      result, sameRecord := current, true;
    }
  }

  /** The converse does not hold: a section that flips and flips back leaves
      the value unchanged, yet the updater returns a fresh copy. */
  lemma FlipAndBackIsFreshCopy()
    ensures var es := [Entry(Some("hero"), false), Entry(Some("hero"), true)];
      AnyChange(InitialVisibility(), es) && Applied(InitialVisibility(), es) == InitialVisibility()
  {
    var es := [Entry(Some("hero"), false), Entry(Some("hero"), true)];
    assert es[..1] == [es[0]] && es[..1][..0] == [];
    assert Applied(InitialVisibility(), es[..1]) == InitialVisibility()["hero" := false];
  }

  /** The class a section gets: faded in exactly when it is visible. */
  function SectionPresentation(v: Visibility, s: SectionId): (cls: string)
    ensures cls == "opacity-100" || cls == "opacity-0"
    ensures cls == "opacity-100" <==> SectionKey(s) in v && v[SectionKey(s)]
  {
    if SectionKey(s) in v && v[SectionKey(s)] then "opacity-100" else "opacity-0"
  }

  /** Starting from the initial record, a section is faded in exactly when its
      last entry says it intersects, or when it is the hero and no entry for
      it has arrived. */
  lemma PresentationAfterEntries(entries: seq<Entry>, s: SectionId)
    ensures SectionPresentation(Applied(InitialVisibility(), entries), s) == "opacity-100"
      <==> LastFor(entries, SectionKey(s)) == Some(true)
           || (LastFor(entries, SectionKey(s)).None? && s == Hero)
  {
    LastEntryWins(InitialVisibility(), entries, SectionKey(s));
  }

  // ---------------------------------------------------------------------
  // Section registration
  // ---------------------------------------------------------------------

  /** A DOM element (its identity only). */
  datatype Element = Element(handle: nat)

  /** The entry the observer reports for `e`: its `data-section-id`, if any. */
  function EntryFor(attributes: map<Element, string>, e: Element, isIntersecting: bool): Entry {
    Entry(if e in attributes then Some(attributes[e]) else None, isIntersecting)
  }

  /** `sectionRefs`, whether `observerRef.current` is set, the elements that
      observer watches, and the `data-section-id` attributes set so far. */
  class SectionRegistry {
    var refs: map<SectionId, Option<Element>>
    var observerActive: bool
    var observed: set<Element>
    var attributes: map<Element, string>

    ghost predicate Valid()
      reads this
    {
      && (forall s :: s in refs)
      && (!observerActive ==> observed == {})
      && (forall s | refs[s].Some? :: refs[s].value in attributes && IsSectionKey(attributes[refs[s].value]))
      && (forall e | e in observed :: e in attributes && IsSectionKey(attributes[e]))
    }

    /** The elements currently registered for some section. */
    function Registered(): set<Element>
      reads this
      requires forall s :: s in refs
    {
      set i | 0 <= i < |SectionIds| && refs[SectionIds[i]].Some? :: refs[SectionIds[i]].value
    }

    constructor()
      ensures Valid()
      ensures refs == map[Hero := None, Pricing := None, GetStarted := None]
      ensures !observerActive && observed == {} && attributes == map[]
    {
      var initial: map<SectionId, Option<Element>> := map[Hero := None, Pricing := None, GetStarted := None];
      forall s: SectionId ensures s in initial {
        match s
        case Hero =>
        case Pricing =>
        case GetStarted =>
      }
      refs := initial;
      observerActive := false;
      observed := {};
      attributes := map[];
    }

    /** `registerSectionRef(section)(element)`. */
    method RegisterSectionRef(section: SectionId, element: Option<Element>)
      requires Valid()
      modifies this
      ensures Valid()
      ensures refs == old(refs)[section := element]
      ensures observerActive == old(observerActive)
      ensures element.Some? ==> attributes == old(attributes)[element.value := SectionKey(section)]
      ensures element.None? ==> attributes == old(attributes)
      ensures var dropped := if observerActive && old(refs[section]).Some? then {old(refs[section]).value} else {};
        var added := if observerActive && element.Some? then {element.value} else {};
        observed == (old(observed) - dropped) + added
    {
      var previous := refs[section];
      if previous.Some? && observerActive {
        observed := observed - {previous.value};
      }
      refs := refs[section := element];
      if element.Some? {
        attributes := attributes[element.value := SectionKey(section)];
        if observerActive {
          observed := observed + {element.value};
        }
      }
    }

    /** The mount effect: a new observer watching every registered element. */
    method Connect()
      requires Valid() && !observerActive
      modifies this
      ensures Valid()
      ensures observerActive && observed == Registered()
      ensures refs == old(refs) && attributes == old(attributes)
    {
      observerActive := true;
      observed := {};
      for i := 0 to |SectionIds|
        invariant observerActive && refs == old(refs) && attributes == old(attributes)
        invariant observed == set j | 0 <= j < i && refs[SectionIds[j]].Some? :: refs[SectionIds[j]].value
      {
        var element := refs[SectionIds[i]];
        if element.Some? {
          observed := observed + {element.value};
        }
      }
    }

    /** The effect's cleanup: `observer.disconnect()`. */
    method Disconnect()
      requires Valid()
      modifies this
      ensures Valid()
      ensures !observerActive && observed == {}
      ensures refs == old(refs) && attributes == old(attributes)
    {
      observerActive := false;
      observed := {};
    }
  }

  /** An entry about an element this page's observer watches is never
      skipped, and it writes one of the three section keys. */
  lemma ObservedEntryIsTagged(attributes: map<Element, string>, e: Element, isIntersecting: bool)
    requires e in attributes && IsSectionKey(attributes[e])
    ensures KeyOf(EntryFor(attributes, e, isIntersecting)) == Some(attributes[e])
    ensures exists s: SectionId :: SectionKey(s) == attributes[e]
  {
    var key := attributes[e];
    if key == "hero" {
      assert SectionKey(Hero) == key;
    } else if key == "pricing" {
      assert SectionKey(Pricing) == key;
    } else {
      assert SectionKey(GetStarted) == key;
    }
  }

  // ---------------------------------------------------------------------
  // Pricing links
  // ---------------------------------------------------------------------

  /** The names of the pricing cards, in order. */
  const PricingTierNames: seq<string> := ["Basic", "Pro", "Enterprise"]

  /** The "Choose plan" link of a card. */
  function PlanLink(tierName: string): (link: string)
    ensures |link| == 20 + |tierName|
    ensures link[..20] == "/auth/register?plan=" && link[20..] == tierName
  {
    "/auth/register?plan=" + tierName
  }
}
