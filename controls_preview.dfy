/** The `Preview` controller of 4afab02559918b31ba5344b431c329b9ed4e6bda/base/js/main.js:
    nav grouped into `div.language` sections, transport buttons (`.ad__control--*`)
    besides the arrow keys, cache-busting iframe URLs and ad-blocker detection.

    The page is abstracted into the record `View`; the class `Preview` holds the same
    state in fields, and each of its methods is specified by the step function on
    `View` of the same name with an `F` suffix. */
module ControlsPreview {
  import opened Decimal
  import opened PropertyKeys
  import opened Grouping
  import opened Page
  import opened Arith

  /** The markup `_showAdBlockMessage` puts into `.ad`. */
  const AdBlockNotice: string :=
    "<div class=\"adblock-message\"><h1>Ooops...</h1><h2>AdBlocker Detected</h2><p>It seems that an ad blocker is preventing the preview from loading. Please disable your ad blocker for this page to view the banner previews.</p></div>"

  const LinkClass: string := "asset-link"
  const SectionClass: string := "language"

  const KeyLeft: int := 37
  const KeyRight: int := 39

  /** A clicked element: a transport control (with its class list) or a nav anchor. */
  datatype Target = Control(classes: set<string>) | Link(anchor: Anchor)

  /** The abstract page state the controller reads and writes. */
  datatype View = View(
    currentFormat: int,
    nav: seq<Node>,                 // children of `.bannernav`
    links: seq<Anchor>,             // `this.links`
    iframeSrc: string,
    onload: Option<Anchor>,         // the target captured by the current `iframe.onload`
    frame: FrameState,
    frameWidth: string,             // `iframe.style.width`
    frameHeight: string,
    frameDisplayed: bool,           // false once `iframe.style.display` is 'none'
    adContent: Option<string>,      // markup written into `.ad`; None while it is the original
    formatText: string,             // text of `.ad__format`
    pauseShown: bool,
    resumeShown: bool,
    keydownListeners: nat,          // listeners on `document` for 'keydown'
    controlListeners: nat,          // click listeners on each `.ad__control`
    linkListeners: nat)             // click listeners on each current nav anchor

  /** State right after the constructor; `_getData` has not answered yet. */
  function InitialF(pauseShown: bool, resumeShown: bool): View {
    BindEventsF(BindSelectorsF(View(0, [], [], "", None, Idle, "", "", true, None, "",
                                    pauseShown, resumeShown, 0, 0, 0)))
  }

  /** `url` with a `nocache` query parameter holding the timestamp `now`. */
  function AntiCache(url: string, now: int): (r: string)
    ensures |r| > |url| && r[..|url|] == url
  {
    url + (if '?' in url then "&" else "?") + "nocache=" + IntToDecimal(now)
  }

  /** The target is kept as a prefix; the parameter is appended with '&' exactly when the
      target already has a query string, so the result always has one. */
  lemma AntiCacheShape(url: string, now: int)
    ensures |AntiCache(url, now)| > |url| + 1 && AntiCache(url, now)[..|url|] == url
    ensures AntiCache(url, now)[|url|] == (if '?' in url then '&' else '?')
    ensures AntiCache(url, now)[|url| + 1..] == "nocache=" + IntToDecimal(now)
    ensures '?' in AntiCache(url, now)
  {
    var sep := if '?' in url then "&" else "?";
    var r := AntiCache(url, now);
    assert r == url + (sep + ("nocache=" + IntToDecimal(now)));
    if '?' in url {
      var i :| 0 <= i < |url| && url[i] == '?';
      assert r[i] == '?';
    } else {
      assert r[|url|] == '?';
    }
  }

  /** Two different timestamps give two different URLs for the same target. */
  lemma AntiCacheDistinct(url: string, t1: int, t2: int)
    requires t1 != t2
    ensures AntiCache(url, t1) != AntiCache(url, t2)
  {
    AntiCacheShape(url, t1);
    AntiCacheShape(url, t2);
    if AntiCache(url, t1) == AntiCache(url, t2) {
      var q1, q2 := "nocache=" + IntToDecimal(t1), "nocache=" + IntToDecimal(t2);
      assert q1 == q2;
      assert q1[8..] == IntToDecimal(t1) && q2[8..] == IntToDecimal(t2);
      IntToDecimalInjective(t1, t2);
    }
  }

  /** `currentFormat++` followed by the wrap in `_nextFormat`. */
  function NextIndex(i: int, n: int): (j: int)
    ensures n == 0 && i >= -1 ==> j == 0
    ensures 0 < n && -1 <= i < n ==> 0 <= j < n
  {
    if i + 1 >= n then 0 else i + 1
  }

  /** `currentFormat--` followed by the wrap in `_prevFormat`. */
  function PrevIndex(i: int, n: int): (j: int)
    ensures n == 0 && i <= 0 ==> j == -1
    ensures 0 < n && 0 <= i <= n ==> 0 <= j < n
  {
    if i - 1 < 0 then n - 1 else i - 1
  }

  /** Inside a non-empty nav both moves are steps modulo its length. */
  lemma IndexWrap(i: int, n: int)
    requires 0 <= i < n
    ensures NextIndex(i, n) == (i + 1) % n
    ensures PrevIndex(i, n) == (i - 1) % n
  {
    if i + 1 < n { ModUnique(i + 1, n, 0, i + 1); } else { ModUnique(i + 1, n, 1, 0); }
    if i == 0 { ModUnique(-1, n, -1, n - 1); } else { ModUnique(i - 1, n, 0, i - 1); }
  }
  /** `k` steps of `_nextFormat`'s index arithmetic, and of `_prevFormat`'s. */
  function Advance(i: int, n: int, k: nat): int
    decreases k
  {
    if k == 0 then i else Advance(NextIndex(i, n), n, k - 1)
  }

  function Retreat(i: int, n: int, k: nat): int
    decreases k
  {
    if k == 0 then i else Retreat(PrevIndex(i, n), n, k - 1)
  }

  lemma {:induction false} AdvanceMod(i: int, n: int, k: nat)
    requires 0 <= i < n
    ensures Advance(i, n, k) == (i + k) % n
    decreases k
  {
    if k == 0 {
      ModUnique(i, n, 0, i);
    } else {
      IndexWrap(i, n);
      AdvanceMod(NextIndex(i, n), n, k - 1);
      ModNext(i, NextIndex(i, n), k, n);
    }
  }

  lemma {:induction false} RetreatMod(i: int, n: int, k: nat)
    requires 0 <= i < n
    ensures Retreat(i, n, k) == (i - k) % n
    decreases k
  {
    if k == 0 {
      ModUnique(i, n, 0, i);
    } else {
      IndexWrap(i, n);
      RetreatMod(PrevIndex(i, n), n, k - 1);
      ModPrev(i, PrevIndex(i, n), k, n);
    }
  }


  /** Nav sections in key order: `div.language > h1 + ul`. */
  function Sections(keys: seq<string>, groups: map<string, seq<Descriptor>>): seq<Node>
    requires forall k :: k in keys ==> k in groups
  {
    if |keys| == 0 then []
    else
      var k := keys[|keys| - 1];
      assert k in keys;
      Sections(keys[..|keys| - 1], groups) + [Section(SectionClass, k, Anchors(groups[k], LinkClass))]
  }

  /** The `Object.keys(groups).forEach` loop of `_appendLinks`. */
  method RenderNav(keys: seq<string>, groups: map<string, seq<Descriptor>>) returns (nav: seq<Node>)
    requires forall k :: k in keys ==> k in groups
    ensures nav == Sections(keys, groups)
  {
    nav := [];
    var i := 0;
    while i < |keys|
      invariant 0 <= i <= |keys|
      invariant nav == Sections(keys[..i], groups)
    {
      assert keys[i] in keys;
      var ul := RenderList(groups[keys[i]], LinkClass);
      nav := nav + [Section(SectionClass, keys[i], ul)];
      assert keys[..i + 1][..i] == keys[..i];
      i := i + 1;
    }
    assert keys[..i] == keys;
  }

  /** Section `i` is headed by the `i`-th key and lists that key's group. */
  lemma {:induction false} SectionsShape(keys: seq<string>, groups: map<string, seq<Descriptor>>)
    requires forall k :: k in keys ==> k in groups
    ensures |Sections(keys, groups)| == |keys|
    ensures forall i :: 0 <= i < |keys| ==>
      Sections(keys, groups)[i] == Section(SectionClass, keys[i], Anchors(groups[keys[i]], LinkClass))
  {
    if |keys| > 0 {
      var init := keys[..|keys| - 1];
      SectionsShape(init, groups);
      forall i | 0 <= i < |init| ensures init[i] == keys[i] { }
    }
  }

  /** The anchors of the sections are the groups' descriptors, flattened in key order. */
  lemma {:induction false} SectionsAnchors(keys: seq<string>, data: seq<Descriptor>)
    requires forall k :: k in keys ==> k in FirstSeen(data)
    ensures AnchorsOf(Sections(keys, GroupMap(data))) == Anchors(Flatten(keys, data), LinkClass)
  {
    if |keys| > 0 {
      var init, k := keys[..|keys| - 1], keys[|keys| - 1];
      assert k in keys;
      SectionsAnchors(init, data);
      AnchorsOfSnoc(Sections(init, GroupMap(data)), Section(SectionClass, k, Anchors(Members(data, k), LinkClass)));
      AnchorsAppend(Flatten(init, data), Members(data, k), LinkClass);
    }
  }

  /** After rendering, `this.links` lists one `asset-link` anchor per descriptor, in nav order. */
  lemma NavLinks(data: seq<Descriptor>)
    ensures forall k :: k in OwnKeys(FirstSeen(data)) ==> k in GroupMap(data)
    ensures AnchorsOf(Sections(OwnKeys(FirstSeen(data)), GroupMap(data))) ==
      Anchors(GroupedOrder(data), LinkClass)
    ensures |AnchorsOf(Sections(OwnKeys(FirstSeen(data)), GroupMap(data)))| == |data|
  {
    OrderedKeys(data);
    SectionsAnchors(OwnKeys(FirstSeen(data)), data);
    PartitionPermutation(data);
    assert |multiset(GroupedOrder(data))| == |multiset(data)|;
  }

  // ---- step functions -------------------------------------------------------

  /** `_bindSelectors`: re-read `this.links` from the page. */
  function BindSelectorsF(v: View): View {
    v.(links := AnchorsOf(v.nav))
  }

  /** `_bindEvents`: `bind` makes a fresh function each time, so each call adds one more
      keydown listener and one more click listener on every control and current anchor. */
  function BindEventsF(v: View): View {
    v.(keydownListeners := v.keydownListeners + 1,
       controlListeners := v.controlListeners + 1,
       linkListeners := v.linkListeners + 1)
  }

  /** `_loadFormat({target: t})`; `t` is None for an undefined target or an element without href. */
  function LoadFormatF(v: View, t: Option<Anchor>, now: int): View {
    if t.None? || t.value.href == "" then v
    else v.(frame := Loading, iframeSrc := AntiCache(t.value.href, now), onload := t)
  }

  function NextFormatF(v: View, now: int): View {
    var i := NextIndex(v.currentFormat, |v.links|);
    LoadFormatF(v.(currentFormat := i), At(v.links, i), now)
  }

  function PrevFormatF(v: View, now: int): View {
    var i := PrevIndex(v.currentFormat, |v.links|);
    LoadFormatF(v.(currentFormat := i), At(v.links, i), now)
  }

  function OnKeyDownF(v: View, code: int, now: int): View {
    if code == KeyLeft then PrevFormatF(v, now)
    else if code == KeyRight then NextFormatF(v, now)
    else v
  }

  function RestartAnimationF(v: View): View {
    if v.iframeSrc == "" then v else v.(pauseShown := true, resumeShown := false)
  }

  /** `timeline`: the frame exposes `gsap.globalTimeline`. */
  function PauseAnimationF(v: View, timeline: bool): View {
    if !timeline then v else v.(resumeShown := true, pauseShown := false)
  }

  function ResumeAnimationF(v: View, timeline: bool): View {
    if !timeline then v else v.(pauseShown := true, resumeShown := false)
  }

  function ClassesOf(t: Target): set<string> {
    match t
    case Control(c) => c
    case Link(a) => {a.className}
  }

  function OnClickF(v: View, t: Target, now: int, timeline: bool): View {
    var c := ClassesOf(t);
    if "ad__control--restart" in c then RestartAnimationF(v)
    else if "ad__control--pause" in c then PauseAnimationF(v, timeline)
    else if "ad__control--resume" in c then ResumeAnimationF(v, timeline)
    else if "ad__control--next" in c then NextFormatF(v, now)
    else if "ad__control--prev" in c then PrevFormatF(v, now)
    else if LinkClass in c then LoadFormatF(v, if t.Link? then Some(t.anchor) else None, now)
    else v
  }

  function ShowAdBlockMessageF(v: View): View {
    v.(adContent := Some(AdBlockNotice), frameDisplayed := false, frame := Blocked)
  }

  /** The `iframe.onload` closure installed by the last `_loadFormat`, run with the
      result of inspecting the frame. */
  function FrameLoadedF(v: View, outcome: Inspection): View {
    match v.onload
    case None => v
    case Some(a) =>
      match outcome
      case Accessible(hasBanner) =>
        v.(frameWidth := a.dataWidth + "px", frameHeight := a.dataHeight + "px",
           frame := if hasBanner then Visible else v.frame,
           formatText := a.dataWidth + " x " + a.dataHeight)
      case _ => ShowAdBlockMessageF(v)
  }

  /** `_appendLinks(data)`; a TypeError from the grouping loop ends it right after the
      nav was cleared (the promise chain's `catch` only logs it). */
  function AppendLinksF(v: View, data: seq<Descriptor>, now: int): View {
    var cleared := v.(nav := []);
    if !GroupsCleanly(data) then cleared
    else
      var keys := OwnKeys(FirstSeen(data));
      NavKeysGrouped(data);
      var rendered := cleared.(nav := Sections(keys, GroupMap(data)), linkListeners := 0);
      var bound := BindEventsF(BindSelectorsF(rendered));
      if |bound.links| > 0 then LoadFormatF(bound, Some(bound.links[0]), now) else bound
  }

  /** The handler run `n` times, once per registered listener. */
  function KeyDownTimes(v: View, code: int, now: int, n: nat): View
    decreases n
  {
    if n == 0 then v else KeyDownTimes(OnKeyDownF(v, code, now), code, now, n - 1)
  }

  function ClickTimes(v: View, t: Target, now: int, timeline: bool, n: nat): View
    decreases n
  {
    if n == 0 then v else ClickTimes(OnClickF(v, t, now, timeline), t, now, timeline, n - 1)
  }

  /** A key press: every keydown listener runs `_onKeyDown`. */
  function KeyEventF(v: View, code: int, now: int): View {
    KeyDownTimes(v, code, now, v.keydownListeners)
  }

  /** A click on a transport control: every listener bound to it runs `_onClick`. */
  function ControlClickF(v: View, classes: set<string>, now: int, timeline: bool): View {
    ClickTimes(v, Control(classes), now, timeline, v.controlListeners)
  }

  /** A click on nav anchor `j`. */
  function LinkClickF(v: View, j: nat, now: int, timeline: bool): View
    requires j < |v.links|
  {
    ClickTimes(v, Link(v.links[j]), now, timeline, v.linkListeners)
  }

  // ---- the controller -------------------------------------------------------

  class Preview {
    var currentFormat: int
    var nav: seq<Node>
    var links: seq<Anchor>
    var iframeSrc: string
    var onload: Option<Anchor>
    var frame: FrameState
    var frameWidth: string
    var frameHeight: string
    var frameDisplayed: bool
    var adContent: Option<string>
    var formatText: string
    var pauseShown: bool
    var resumeShown: bool
    var keydownListeners: nat
    var controlListeners: nat
    var linkListeners: nat

    function Snapshot(): View
      reads this
    {
      View(currentFormat, nav, links, iframeSrc, onload, frame, frameWidth, frameHeight,
           frameDisplayed, adContent, formatText, pauseShown, resumeShown,
           keydownListeners, controlListeners, linkListeners)
    }

    /** `new Preview()`; the buttons' initial visibility comes from the page's markup. */
    constructor (pauseShownInitially: bool, resumeShownInitially: bool)
      ensures Snapshot() == InitialF(pauseShownInitially, resumeShownInitially)
    {
      currentFormat := 0;
      nav, links := [], [];
      iframeSrc, onload, frame := "", None, Idle;
      frameWidth, frameHeight, frameDisplayed := "", "", true;
      adContent, formatText := None, "";
      pauseShown, resumeShown := pauseShownInitially, resumeShownInitially;
      keydownListeners, controlListeners, linkListeners := 0, 0, 0;
      new;
      BindSelectors();
      BindEvents();
    }

    method BindSelectors()
      modifies this
      ensures Snapshot() == BindSelectorsF(old(Snapshot()))
    {
      links := AnchorsOf(nav);
    }

    method BindEvents()
      modifies this
      ensures Snapshot() == BindEventsF(old(Snapshot()))
    {
      keydownListeners := keydownListeners + 1;
      controlListeners := controlListeners + 1;
      linkListeners := linkListeners + 1;
    }

    method AppendLinks(data: seq<Descriptor>, now: int)
      modifies this
      ensures Snapshot() == AppendLinksF(old(Snapshot()), data, now)
    {
      ghost var v := Snapshot();
      nav := [];
      var ok, keys, groups := GroupByLanguage(data);
      if !ok {
        return;
      }
      NavKeysGrouped(data);
      var rendered := RenderNav(OwnKeys(keys), groups);
      nav := rendered;
      linkListeners := 0;  // the anchors are new elements
      ghost var r := Snapshot();
      assert r == v.(nav := rendered, linkListeners := 0);
      BindSelectors();
      BindEvents();
      assert Snapshot() == BindEventsF(BindSelectorsF(r));
      if |links| > 0 {
        LoadFormat(Some(links[0]), now);
      }
    }

    method LoadFormat(t: Option<Anchor>, now: int)
      modifies this
      ensures Snapshot() == LoadFormatF(old(Snapshot()), t, now)
    {
      if t.Some? && t.value.href != "" {
        frame := Loading;
        iframeSrc := AntiCache(t.value.href, now);
        onload := t;
      }
    }

    method NextFormat(now: int)
      modifies this
      ensures Snapshot() == NextFormatF(old(Snapshot()), now)
    {
      currentFormat := currentFormat + 1;
      if currentFormat >= |links| {
        currentFormat := 0;
      }
      LoadFormat(At(links, currentFormat), now);
    }

    method PrevFormat(now: int)
      modifies this
      ensures Snapshot() == PrevFormatF(old(Snapshot()), now)
    {
      currentFormat := currentFormat - 1;
      if currentFormat < 0 {
        currentFormat := |links| - 1;
      }
      LoadFormat(At(links, currentFormat), now);
    }

    method OnKeyDown(code: int, now: int)
      modifies this
      ensures Snapshot() == OnKeyDownF(old(Snapshot()), code, now)
    {
      if code == KeyLeft {
        PrevFormat(now);
      } else if code == KeyRight {
        NextFormat(now);
      }
    }

    method OnClick(t: Target, now: int, timeline: bool)
      modifies this
      ensures Snapshot() == OnClickF(old(Snapshot()), t, now, timeline)
    {
      var c := ClassesOf(t);
      if "ad__control--restart" in c {
        RestartAnimation();
      } else if "ad__control--pause" in c {
        PauseAnimation(timeline);
      } else if "ad__control--resume" in c {
        ResumeAnimation(timeline);
      } else if "ad__control--next" in c {
        NextFormat(now);
      } else if "ad__control--prev" in c {
        PrevFormat(now);
      } else if LinkClass in c {
        LoadFormat(if t.Link? then Some(t.anchor) else None, now);
      }
    }

    /** Resetting `src` to itself reloads the frame; the `onload` handler stays. */
    method RestartAnimation()
      modifies this
      ensures Snapshot() == RestartAnimationF(old(Snapshot()))
    {
      if iframeSrc != "" {
        pauseShown := true;
        resumeShown := false;
      }
    }

    method PauseAnimation(timeline: bool)
      modifies this
      ensures Snapshot() == PauseAnimationF(old(Snapshot()), timeline)
    {
      if timeline {
        resumeShown := true;
        pauseShown := false;
      }
    }

    method ResumeAnimation(timeline: bool)
      modifies this
      ensures Snapshot() == ResumeAnimationF(old(Snapshot()), timeline)
    {
      if timeline {
        pauseShown := true;
        resumeShown := false;
      }
    }

    method ShowAdBlockMessage()
      modifies this
      ensures Snapshot() == ShowAdBlockMessageF(old(Snapshot()))
    {
      adContent := Some(AdBlockNotice);
      frameDisplayed := false;
      frame := Blocked;
    }

    /** The frame finished loading and the handler inspected it. */
    method FrameLoaded(outcome: Inspection)
      modifies this
      ensures Snapshot() == FrameLoadedF(old(Snapshot()), outcome)
    {
      if onload.Some? {
        var a := onload.value;
        match outcome {
          case Accessible(hasBanner) =>
            frameWidth := a.dataWidth + "px";
            frameHeight := a.dataHeight + "px";
            if hasBanner {
              frame := Visible;
            }
            formatText := a.dataWidth + " x " + a.dataHeight;
          case _ =>
            ShowAdBlockMessage();
        }
      }
    }
  }

  // ---- properties ------------------------------------------------------------

  /** Within a non-empty nav, `_prevFormat` undoes `_nextFormat` and vice versa. */
  lemma NextPrevRoundTrip(i: int, n: int)
    requires 0 <= i < n
    ensures PrevIndex(NextIndex(i, n), n) == i
    ensures NextIndex(PrevIndex(i, n), n) == i
  {
  }

  /** Every nav anchor has a target, so every step of navigation loads something. */
  predicate Navigable(v: View) {
    forall i :: 0 <= i < |v.links| ==> v.links[i].href != ""
  }

  /** The frame is loading (or showing) the selected anchor. */
  predicate Selected(v: View, now: int) {
    && 0 <= v.currentFormat < |v.links|
    && v.iframeSrc == AntiCache(v.links[v.currentFormat].href, now)
    && v.onload == Some(v.links[v.currentFormat])
  }

  /** One run of an arrow handler inside a non-empty nav loads the newly selected anchor. */
  lemma ArrowOnce(v: View, code: int, now: int)
    requires 0 <= v.currentFormat < |v.links| && Navigable(v)
    requires code == KeyLeft || code == KeyRight
    ensures var w := OnKeyDownF(v, code, now);
      && w.links == v.links && w.nav == v.nav
      && w.currentFormat == (if code == KeyRight then v.currentFormat + 1 else v.currentFormat - 1) % |v.links|
      && Selected(w, now) && Navigable(w)
  {
    var n, i := |v.links|, v.currentFormat;
    var j := if code == KeyRight then NextIndex(i, n) else PrevIndex(i, n);
    assert OnKeyDownF(v, code, now) == LoadFormatF(v.(currentFormat := j), At(v.links, j), now);
    IndexWrap(i, n);
  }

  /** Any number of arrow presses keeps the nav and the links, and after at least one the
      frame loads the selected anchor. */
  lemma {:induction false} ArrowTimes(v: View, code: int, now: int, k: nat)
    requires 0 <= v.currentFormat < |v.links| && Navigable(v)
    requires code == KeyLeft || code == KeyRight
    ensures var r := KeyDownTimes(v, code, now, k);
      && r.links == v.links && r.nav == v.nav && 0 <= r.currentFormat < |r.links|
      && (k > 0 ==> Selected(r, now))
    decreases k
  {
    if k > 0 {
      var w := OnKeyDownF(v, code, now);
      assert w.links == v.links && w.nav == v.nav && Selected(w, now) && Navigable(w) by {
        ArrowOnce(v, code, now);
      }
      ArrowTimes(w, code, now, k - 1);
    }
  }

  /** `k` runs of the Right-arrow handler advance the selection by `k`, wrapping around,
      and load the anchor they end on. */
  lemma RightPresses(v: View, now: int, k: nat)
    requires 0 <= v.currentFormat < |v.links| && Navigable(v)
    ensures KeyDownTimes(v, KeyRight, now, k).currentFormat == (v.currentFormat + k) % |v.links|
    ensures k > 0 ==> Selected(KeyDownTimes(v, KeyRight, now, k), now)
  {
    RightSteps(v, now, k);
    AdvanceMod(v.currentFormat, |v.links|, k);
    ArrowTimes(v, KeyRight, now, k);
  }

  /** The selection after `k` runs of the Right handler, whatever the links hold. */
  lemma {:induction false} RightSteps(v: View, now: int, k: nat)
    ensures KeyDownTimes(v, KeyRight, now, k).currentFormat == Advance(v.currentFormat, |v.links|, k)
    decreases k
  {
    if k > 0 {
      var w := OnKeyDownF(v, KeyRight, now);
      assert w.links == v.links && w.currentFormat == NextIndex(v.currentFormat, |v.links|);
      RightSteps(w, now, k - 1);
    }
  }

  /** `k` runs of the Left-arrow handler move the selection back by `k`, wrapping around,
      and load the anchor they end on. */
  lemma LeftPresses(v: View, now: int, k: nat)
    requires 0 <= v.currentFormat < |v.links| && Navigable(v)
    ensures KeyDownTimes(v, KeyLeft, now, k).currentFormat == (v.currentFormat - k) % |v.links|
    ensures k > 0 ==> Selected(KeyDownTimes(v, KeyLeft, now, k), now)
  {
    LeftSteps(v, now, k);
    RetreatMod(v.currentFormat, |v.links|, k);
    ArrowTimes(v, KeyLeft, now, k);
  }

  lemma {:induction false} LeftSteps(v: View, now: int, k: nat)
    ensures KeyDownTimes(v, KeyLeft, now, k).currentFormat == Retreat(v.currentFormat, |v.links|, k)
    decreases k
  {
    if k > 0 {
      var w := OnKeyDownF(v, KeyLeft, now);
      assert w.links == v.links && w.currentFormat == PrevIndex(v.currentFormat, |v.links|);
      LeftSteps(w, now, k - 1);
    }
  }

  /** Keys other than the two arrows are ignored by every listener. */
  lemma {:induction false} OtherKeysIgnored(v: View, code: int, now: int, k: nat)
    requires code != KeyLeft && code != KeyRight
    ensures KeyDownTimes(v, code, now, k) == v
    decreases k
  {
    if k > 0 {
      OtherKeysIgnored(v, code, now, k - 1);
    }
  }

  /** A pause, resume or restart click has the same effect however many listeners run it. */
  lemma {:induction false} ButtonClicksIdempotent(v: View, classes: set<string>, now: int, timeline: bool, k: nat)
    requires k >= 1
    requires "ad__control--restart" in classes || "ad__control--pause" in classes ||
             "ad__control--resume" in classes
    ensures ClickTimes(v, Control(classes), now, timeline, k) == OnClickF(v, Control(classes), now, timeline)
    decreases k
  {
    if k > 1 {
      var w := OnClickF(v, Control(classes), now, timeline);
      assert OnClickF(w, Control(classes), now, timeline) == w;
      ButtonClicksIdempotent(w, classes, now, timeline, k - 1);
    }
  }

  /** With an empty nav the arrows do not load anything: Right leaves the selection at 0
      and Left at -1. */
  lemma EmptyNavArrows(v: View, now: int)
    requires |v.links| == 0 && IndexSane(v)
    ensures OnKeyDownF(v, KeyRight, now) == v.(currentFormat := 0)
    ensures OnKeyDownF(v, KeyLeft, now) == v.(currentFormat := -1)
  {
  }

  /** The transport buttons as `_onClick` routes them: pause shows resume and hides pause,
      resume and restart show pause and hide resume, and each is a no-op without a
      timeline in the frame (pause, resume) or without a source (restart). */
  lemma TransportButtons(v: View, classes: set<string>, now: int, timeline: bool)
    ensures "ad__control--restart" in classes ==>
      OnClickF(v, Control(classes), now, timeline) ==
        (if v.iframeSrc == "" then v else v.(pauseShown := true, resumeShown := false))
    ensures "ad__control--restart" !in classes && "ad__control--pause" in classes ==>
      OnClickF(v, Control(classes), now, timeline) ==
        (if timeline then v.(pauseShown := false, resumeShown := true) else v)
    ensures ("ad__control--restart" !in classes && "ad__control--pause" !in classes
             && "ad__control--resume" in classes) ==>
      OnClickF(v, Control(classes), now, timeline) ==
        (if timeline then v.(pauseShown := true, resumeShown := false) else v)
  {
  }

  /** Resume undoes pause: they leave the buttons as a resume alone does. */
  lemma PauseThenResume(v: View)
    ensures ResumeAnimationF(PauseAnimationF(v, true), true) == ResumeAnimationF(v, true)
    ensures PauseAnimationF(ResumeAnimationF(v, true), true) == PauseAnimationF(v, true)
  {
  }

  /** Clicking a nav anchor loads that anchor's banner and does not move the
      keyboard selection. */
  lemma {:induction false} LinkClickLoads(v: View, j: nat, now: int, timeline: bool, k: nat)
    requires j < |v.links| && v.links[j].className == LinkClass && v.links[j].href != ""
    requires k >= 1
    ensures ClickTimes(v, Link(v.links[j]), now, timeline, k) ==
      v.(frame := Loading, iframeSrc := AntiCache(v.links[j].href, now), onload := Some(v.links[j]))
    decreases k
  {
    var w := OnClickF(v, Link(v.links[j]), now, timeline);
    assert w == v.(frame := Loading, iframeSrc := AntiCache(v.links[j].href, now), onload := Some(v.links[j]));
    if k > 1 {
      LinkClickLoads(w, j, now, timeline, k - 1);
    }
  }

  /** The nav anchors of a rendered manifest: class `asset-link`, a non-empty href each. */
  lemma RenderedLinks(data: seq<Descriptor>)
    ensures forall i :: 0 <= i < |Anchors(GroupedOrder(data), LinkClass)| ==>
      Anchors(GroupedOrder(data), LinkClass)[i].className == LinkClass &&
      Anchors(GroupedOrder(data), LinkClass)[i].href != ""
  {
    var r := Anchors(GroupedOrder(data), LinkClass);
    forall i | 0 <= i < |r| ensures r[i].className == LinkClass && r[i].href != "" {
      assert r[i].href == BannerHref(GroupedOrder(data)[i].name);
      assert |BannerHref(GroupedOrder(data)[i].name)| > 0;
    }
  }

  /** What `_appendLinks` leaves behind. A manifest that makes the grouping loop throw
      leaves the nav empty and nothing else changed; otherwise the nav lists one section
      per language in `Object.keys` order, `this.links` holds one anchor per descriptor
      in that order, each listener kind is bound once more (so freshly created anchors
      carry exactly one), and the first anchor is loaded when there is one. */
  lemma AppendLinksOutcome(v: View, data: seq<Descriptor>, now: int)
    ensures !GroupsCleanly(data) ==> AppendLinksF(v, data, now) == v.(nav := [])
    ensures GroupsCleanly(data) ==>
      var w := AppendLinksF(v, data, now);
      && (forall k :: k in OwnKeys(FirstSeen(data)) ==> k in GroupMap(data))
      && w.nav == Sections(OwnKeys(FirstSeen(data)), GroupMap(data))
      && w.links == Anchors(GroupedOrder(data), LinkClass)
      && |w.links| == |data|
      && w.keydownListeners == v.keydownListeners + 1
      && w.controlListeners == v.controlListeners + 1
      && w.linkListeners == 1
      && w.currentFormat == v.currentFormat
      && w.pauseShown == v.pauseShown && w.resumeShown == v.resumeShown
      && w.adContent == v.adContent && w.frameDisplayed == v.frameDisplayed
      && w.formatText == v.formatText
      && w.frameWidth == v.frameWidth && w.frameHeight == v.frameHeight
      && (|data| > 0 ==> (w.iframeSrc == AntiCache(BannerHref(GroupedOrder(data)[0].name), now)
                         && w.onload == Some(w.links[0]) && w.frame == Loading))
      && (|data| == 0 ==> w.iframeSrc == v.iframeSrc && w.onload == v.onload && w.frame == v.frame)
  {
    if GroupsCleanly(data) {
      NavLinks(data);
      RenderedLinks(data);
    }
  }

  /** After the page starts and a manifest renders, two keydown listeners and two
      listeners per control are registered, so one Right-arrow press moves the
      selection two places. */
  lemma StartupRightPress(pauseShown: bool, resumeShown: bool, data: seq<Descriptor>, now: int, t: int)
    requires GroupsCleanly(data) && |data| > 0
    ensures
      var s := AppendLinksF(InitialF(pauseShown, resumeShown), data, now);
      && s.keydownListeners == 2 && s.controlListeners == 2 && s.linkListeners == 1
      && |s.links| == |data|
      && KeyEventF(s, KeyRight, t).currentFormat == 2 % |data|
      && KeyEventF(s, KeyRight, t).iframeSrc == AntiCache(s.links[2 % |data|].href, t)
  {
    var s := AppendLinksF(InitialF(pauseShown, resumeShown), data, now);
    assert s.links == Anchors(GroupedOrder(data), LinkClass) && s.currentFormat == 0
        && s.keydownListeners == 2 && s.controlListeners == 2 && s.linkListeners == 1
        && |s.links| == |data| by {
      AppendLinksOutcome(InitialF(pauseShown, resumeShown), data, now);
    }
    assert Navigable(s) by {
      RenderedLinks(data);
    }
    assert KeyEventF(s, KeyRight, t) == KeyDownTimes(s, KeyRight, t, 2);
    RightPresses(s, t, 2);
    ArrowTimes(s, KeyRight, t, 2);
  }

  /** Showing a loaded banner: sizes and the format indicator come from the anchor the
      load started with. A failed inspection replaces the banner with the ad-block notice. */
  lemma LoadThenInspect(v: View, a: Anchor, now: int, outcome: Inspection)
    requires a.href != ""
    ensures var w := FrameLoadedF(LoadFormatF(v, Some(a), now), outcome);
      && w.iframeSrc == AntiCache(a.href, now)
      && (outcome.Accessible? ==>
            && w.frameWidth == a.dataWidth + "px" && w.frameHeight == a.dataHeight + "px"
            && w.formatText == a.dataWidth + " x " + a.dataHeight
            && w.frame == (if outcome.hasBanner then Visible else Loading)
            && w.frameDisplayed == v.frameDisplayed && w.adContent == v.adContent)
      && (!outcome.Accessible? ==> Hidden(w) && w.formatText == v.formatText)
  {
  }

  /** Only the most recent `_loadFormat` decides what the next load event shows. */
  lemma LatestTargetWins(v: View, a: Anchor, b: Anchor, t1: int, t2: int, outcome: Inspection)
    requires b.href != ""
    ensures FrameLoadedF(LoadFormatF(LoadFormatF(v, Some(a), t1), Some(b), t2), outcome) ==
      FrameLoadedF(LoadFormatF(v, Some(b), t2), outcome)
  {
  }

  // ---- a session of user events ---------------------------------------------

  /** What the page delivers once the nav is built. */
  datatype Event =
    | KeyPress(code: int, now: int)
    | ControlClick(classes: set<string>, now: int, timeline: bool)
    | LinkClick(index: nat, now: int, timeline: bool)
    | FrameLoad(outcome: Inspection)

  function StepF(v: View, e: Event): View {
    match e
    case KeyPress(code, now) => KeyEventF(v, code, now)
    case ControlClick(classes, now, timeline) => ControlClickF(v, classes, now, timeline)
    case LinkClick(j, now, timeline) => if j < |v.links| then LinkClickF(v, j, now, timeline) else v
    case FrameLoad(outcome) => FrameLoadedF(v, outcome)
  }

  function Run(v: View, events: seq<Event>): View
    decreases |events|
  {
    if |events| == 0 then v else Run(StepF(v, events[0]), events[1..])
  }

  /** The selection is a valid index, or the -1 / 0 that navigating an empty nav leaves. */
  predicate IndexSane(v: View) {
    -1 <= v.currentFormat && (v.currentFormat < |v.links| || v.currentFormat == 0)
  }

  /** The selection is an index of `this.links`. */
  predicate InRange(v: View) {
    0 <= v.currentFormat < |v.links|
  }

  /** The ad-block notice is in place and the iframe is hidden. */
  predicate Hidden(v: View) {
    v.adContent == Some(AdBlockNotice) && !v.frameDisplayed
  }

  /** What one event may not change: nav, links and listener counts stay, and a sane
      selection, a selection in range, exclusive pause / resume buttons and the ad-block
      notice are kept. */
  predicate Keeps(v: View, w: View) {
    && w.nav == v.nav && w.links == v.links
    && w.keydownListeners == v.keydownListeners
    && w.controlListeners == v.controlListeners
    && w.linkListeners == v.linkListeners
    && (IndexSane(v) ==> IndexSane(w))
    && (InRange(v) ==> InRange(w))
    && (v.pauseShown != v.resumeShown ==> w.pauseShown != w.resumeShown)
    && (Hidden(v) ==> Hidden(w))
  }

  lemma OnKeyDownKeeps(v: View, code: int, now: int)
    ensures Keeps(v, OnKeyDownF(v, code, now))
  {
    if code == KeyLeft {
      PrevFormatKeeps(v, now);
    } else if code == KeyRight {
      NextFormatKeeps(v, now);
    }
  }

  lemma LoadFormatKeeps(v: View, t: Option<Anchor>, now: int)
    ensures Keeps(v, LoadFormatF(v, t, now))
  {
  }

  lemma NextFormatKeeps(v: View, now: int)
    ensures Keeps(v, NextFormatF(v, now))
  {
    var i := NextIndex(v.currentFormat, |v.links|);
    LoadFormatKeeps(v.(currentFormat := i), At(v.links, i), now);
  }

  lemma PrevFormatKeeps(v: View, now: int)
    ensures Keeps(v, PrevFormatF(v, now))
  {
    var i := PrevIndex(v.currentFormat, |v.links|);
    LoadFormatKeeps(v.(currentFormat := i), At(v.links, i), now);
  }

  lemma OnClickKeeps(v: View, t: Target, now: int, timeline: bool)
    ensures Keeps(v, OnClickF(v, t, now, timeline))
  {
    var c := ClassesOf(t);
    if "ad__control--restart" in c {
    } else if "ad__control--pause" in c {
    } else if "ad__control--resume" in c {
    } else if "ad__control--next" in c {
      NextFormatKeeps(v, now);
    } else if "ad__control--prev" in c {
      PrevFormatKeeps(v, now);
    } else if LinkClass in c {
      LoadFormatKeeps(v, if t.Link? then Some(t.anchor) else None, now);
    }
  }

  lemma {:induction false} KeyDownTimesKeeps(v: View, code: int, now: int, k: nat)
    ensures Keeps(v, KeyDownTimes(v, code, now, k))
    decreases k
  {
    if k > 0 {
      OnKeyDownKeeps(v, code, now);
      KeyDownTimesKeeps(OnKeyDownF(v, code, now), code, now, k - 1);
    }
  }

  lemma {:induction false} ClickTimesKeeps(v: View, t: Target, now: int, timeline: bool, k: nat)
    ensures Keeps(v, ClickTimes(v, t, now, timeline, k))
    decreases k
  {
    if k > 0 {
      OnClickKeeps(v, t, now, timeline);
      ClickTimesKeeps(OnClickF(v, t, now, timeline), t, now, timeline, k - 1);
    }
  }

  lemma StepKeeps(v: View, e: Event)
    ensures Keeps(v, StepF(v, e))
  {
    match e
    case KeyPress(code, now) => KeyDownTimesKeeps(v, code, now, v.keydownListeners);
    case ControlClick(classes, now, timeline) =>
      ClickTimesKeeps(v, Control(classes), now, timeline, v.controlListeners);
    case LinkClick(j, now, timeline) =>
      if j < |v.links| {
        ClickTimesKeeps(v, Link(v.links[j]), now, timeline, v.linkListeners);
      }
    case FrameLoad(outcome) =>
  }

  /** No sequence of user events changes the nav, the links or the listeners, pushes the
      selection out of range, shows pause and resume together, or brings the banner
      back once the ad-block notice replaced it. */
  // The same induction over `Run` as BasicPreview.RunKeeps, for this variant's events.
  lemma {:induction false} RunKeeps(v: View, events: seq<Event>)
    ensures Keeps(v, Run(v, events))
    decreases |events|
  {
    if |events| > 0 {
      StepKeeps(v, events[0]);
      RunKeeps(StepF(v, events[0]), events[1..]);
    }
  }

  /** Once a load fails its inspection, the notice stays for the rest of the session. */
  lemma AdBlockIsFinal(v: View, outcome: Inspection, events: seq<Event>)
    requires v.onload.Some? && !outcome.Accessible?
    ensures Hidden(Run(FrameLoadedF(v, outcome), events))
  {
    RunKeeps(FrameLoadedF(v, outcome), events);
  }

  /** Right after start-up and a manifest that renders: the links are the rendered
      anchors, the selection is 0 and the buttons are as the page's markup left them. */
  lemma StartupState(pauseShown: bool, resumeShown: bool, data: seq<Descriptor>, now: int)
    requires GroupsCleanly(data)
    ensures var s := AppendLinksF(InitialF(pauseShown, resumeShown), data, now);
      && s.links == Anchors(GroupedOrder(data), LinkClass) && |s.links| == |data|
      && s.currentFormat == 0
      && s.pauseShown == pauseShown && s.resumeShown == resumeShown
  {
    var v := InitialF(pauseShown, resumeShown);
    assert v.currentFormat == 0 && v.pauseShown == pauseShown && v.resumeShown == resumeShown;
    AppendLinksOutcome(v, data, now);
  }

  /** A session from the moment the nav is built: after start-up and a manifest that
      renders, any sequence of user events keeps the rendered links and a selection
      inside them (when there are any), and pause and resume are never shown together
      when the page started with just one of them. */
  lemma Session(pauseShown: bool, resumeShown: bool, data: seq<Descriptor>, now: int, events: seq<Event>)
    requires GroupsCleanly(data)
    ensures var w := Run(AppendLinksF(InitialF(pauseShown, resumeShown), data, now), events);
      && w.links == Anchors(GroupedOrder(data), LinkClass)
      && IndexSane(w)
      && (|data| > 0 ==> 0 <= w.currentFormat < |w.links|)
      && (pauseShown != resumeShown ==> w.pauseShown != w.resumeShown)
  {
    StartupState(pauseShown, resumeShown, data, now);
    RunKeeps(AppendLinksF(InitialF(pauseShown, resumeShown), data, now), events);
  }

  // ---- before the manifest arrives -------------------------------------------

  /** The page while `_getData` is pending: the state the constructor left, except that
      the arrows may have moved the selection to 0 or -1 and pause / resume clicks may
      have toggled the buttons. */
  predicate Waiting(v: View) {
    && v == InitialF(v.pauseShown, v.resumeShown).(currentFormat := v.currentFormat)
    && -1 <= v.currentFormat <= 0
  }

  lemma WaitingKey(v: View, code: int, now: int)
    requires Waiting(v)
    ensures Waiting(OnKeyDownF(v, code, now))
  {
    assert v.links == [];
  }

  lemma WaitingClick(v: View, classes: set<string>, now: int, timeline: bool)
    requires Waiting(v)
    ensures Waiting(OnClickF(v, Control(classes), now, timeline))
  {
    assert v.links == [] && v.iframeSrc == "";
  }

  lemma WaitingStep(v: View, e: Event)
    requires Waiting(v)
    ensures Waiting(StepF(v, e))
  {
    assert v.keydownListeners == 1 && v.controlListeners == 1 && v.links == [] && v.onload == None;
    match e
    case KeyPress(code, now) =>
      assert KeyDownTimes(v, code, now, 1) == OnKeyDownF(v, code, now);
      WaitingKey(v, code, now);
    case ControlClick(classes, now, timeline) =>
      assert ClickTimes(v, Control(classes), now, timeline, 1) == OnClickF(v, Control(classes), now, timeline);
      WaitingClick(v, classes, now, timeline);
    case LinkClick(j, now, timeline) =>
    case FrameLoad(outcome) =>
  }

  // The same induction over `Run` as BasicPreview.WaitingRun, for this variant's events.
  lemma {:induction false} WaitingRun(v: View, events: seq<Event>)
    requires Waiting(v)
    ensures Waiting(Run(v, events))
    decreases |events|
  {
    if |events| > 0 {
      WaitingStep(v, events[0]);
      WaitingRun(StepF(v, events[0]), events[1..]);
    }
  }

  /** Events before the manifest arrives find no links: nothing is loaded, the selection
      ends at 0 or -1, and only pause / resume clicks change the buttons, never showing
      both when the page started with one. */
  lemma BeforeTheManifest(pauseShown: bool, resumeShown: bool, before: seq<Event>)
    ensures var u := Run(InitialF(pauseShown, resumeShown), before);
      && u == InitialF(u.pauseShown, u.resumeShown).(currentFormat := u.currentFormat)
      && -1 <= u.currentFormat <= 0
      && (pauseShown != resumeShown ==> u.pauseShown != u.resumeShown)
  {
    WaitingRun(InitialF(pauseShown, resumeShown), before);
    RunKeeps(InitialF(pauseShown, resumeShown), before);
  }

  /** `_appendLinks` does not reset `currentFormat`: one Left press before a one-banner
      manifest arrives leaves the selection at -1 while banner 0 is loaded. */
  lemma EarlyLeftPress(pauseShown: bool, resumeShown: bool, d: Descriptor, t: int, now: int)
    requires GroupsCleanly([d])
    ensures var s := AppendLinksF(KeyEventF(InitialF(pauseShown, resumeShown), KeyLeft, t), [d], now);
      && |s.links| == 1 && s.currentFormat == -1
      && s.onload == Some(s.links[0])
  {
    var u := KeyEventF(InitialF(pauseShown, resumeShown), KeyLeft, t);
    var v := InitialF(pauseShown, resumeShown);
    assert v.keydownListeners == 1 && v.links == [] && v.currentFormat == 0;
    assert KeyDownTimes(v, KeyLeft, t, 1) == OnKeyDownF(v, KeyLeft, t);
    assert u == v.(currentFormat := -1);
    AppendLinksOutcome(u, [d], now);
  }

  /** From a sane selection in a non-empty nav, one run of an arrow handler selects an
      index again, so the -1 an early Left press leaves lasts until the next arrow. */
  lemma ArrowRecovers(v: View, code: int, now: int)
    requires IndexSane(v) && |v.links| > 0
    requires code == KeyLeft || code == KeyRight
    ensures InRange(OnKeyDownF(v, code, now))
  {
  }

  /** The whole session, events before the manifest arrives included: the links are the
      rendered ones, the selection stays sane (in a non-empty nav an index or -1), and
      pause and resume are never shown together when the page started with one. */
  lemma EarlySession(pauseShown: bool, resumeShown: bool, data: seq<Descriptor>, now: int,
                     before: seq<Event>, events: seq<Event>)
    requires GroupsCleanly(data)
    ensures var w := Run(AppendLinksF(Run(InitialF(pauseShown, resumeShown), before), data, now), events);
      && w.links == Anchors(GroupedOrder(data), LinkClass)
      && IndexSane(w)
      && (pauseShown != resumeShown ==> w.pauseShown != w.resumeShown)
  {
    var u := Run(InitialF(pauseShown, resumeShown), before);
    BeforeTheManifest(pauseShown, resumeShown, before);
    var s := AppendLinksF(u, data, now);
    AppendLinksOutcome(u, data, now);
    assert IndexSane(s);
    RunKeeps(s, events);
  }

  // ---- a three-banner manifest ----------------------------------------------

  /** Starting from any page state, such a manifest lists x, y, z in that order and
      loads x first, with a cache-busting URL. */
  lemma ThreeBannerLoad(v: View, x: Descriptor, y: Descriptor, z: Descriptor, now: int)
    requires x.language == y.language != z.language
    requires x.language !in PrototypeKeys && z.language !in PrototypeKeys
    requires !IsArrayIndex(x.language) && !IsArrayIndex(z.language)
    ensures var s := AppendLinksF(v, [x, y, z], now);
      && s.links == Anchors([x, y, z], LinkClass)
      && s.iframeSrc == AntiCache(BannerHref(x.name), now)
      && s.onload == Some(ToAnchor(x, LinkClass))
  {
    var d := [x, y, z];
    ThreeBannerGrouping(x, y, z);
    AppendLinksOutcome(v, d, now);
  }

  /** The nav shows two sections: x's language listing x and y, then z's listing z. */
  lemma ThreeBannerNav(v: View, x: Descriptor, y: Descriptor, z: Descriptor, now: int)
    requires x.language == y.language != z.language
    requires x.language !in PrototypeKeys && z.language !in PrototypeKeys
    requires !IsArrayIndex(x.language) && !IsArrayIndex(z.language)
    ensures AppendLinksF(v, [x, y, z], now).nav ==
      [Section(SectionClass, x.language, Anchors([x, y], LinkClass)),
       Section(SectionClass, z.language, Anchors([z], LinkClass))]
  {
    var d := [x, y, z];
    var ks := [x.language, z.language];
    ThreeBannerGrouping(x, y, z);
    ThreeBannerMembers(x, y, z);
    assert AppendLinksF(v, d, now).nav == Sections(ks, GroupMap(d)) by {
      AppendLinksOutcome(v, d, now);
    }
    SectionsShape(ks, GroupMap(d));
  }

  /** When the first banner's frame loads, the indicator shows its size. */
  lemma ThreeBannerIndicator(v: View, x: Descriptor, y: Descriptor, z: Descriptor, now: int)
    requires x.language == y.language != z.language
    requires x.language !in PrototypeKeys && z.language !in PrototypeKeys
    requires !IsArrayIndex(x.language) && !IsArrayIndex(z.language)
    ensures FrameLoadedF(AppendLinksF(v, [x, y, z], now), Accessible(true)).formatText ==
      IntToDecimal(x.width) + " x " + IntToDecimal(x.height)
  {
    ThreeBannerLoad(v, x, y, z, now);
  }

  /** The three-banner manifest a (300x250, EN), b (728x90, EN), c (160x600, FR): the nav
      has an EN section listing a and b and an FR section listing c, banner a is loaded from `banners/a/index.html` with '?' starting the cache-busting query,
      and its successful load shows "300 x 250". */
  lemma SampleManifestStartup(v: View, now: int)
    ensures var s := AppendLinksF(v, [Descriptor("a", 300, 250, "EN"), Descriptor("b", 728, 90, "EN"),
                                      Descriptor("c", 160, 600, "FR")], now);
      && s.nav == [Section(SectionClass, "EN", Anchors([Descriptor("a", 300, 250, "EN"),
                                                        Descriptor("b", 728, 90, "EN")], LinkClass)),
                   Section(SectionClass, "FR", Anchors([Descriptor("c", 160, 600, "FR")], LinkClass))]
      && s.iframeSrc == BannerHref("a") + "?" + "nocache=" + IntToDecimal(now)
      && FrameLoadedF(s, Accessible(true)).formatText == "300 x 250"
  {
    var x, y, z := Descriptor("a", 300, 250, "EN"), Descriptor("b", 728, 90, "EN"), Descriptor("c", 160, 600, "FR");
    assert x.language !in PrototypeKeys && z.language !in PrototypeKeys by {
      ShortKeysAreOwn("EN");
      ShortKeysAreOwn("FR");
    }
    assert !IsArrayIndex(x.language) && !IsArrayIndex(z.language) by {
      assert !IsDigit(x.language[0]) && !IsDigit(z.language[0]);
    }
    ThreeBannerNav(v, x, y, z, now);
    ThreeBannerLoad(v, x, y, z, now);
    ThreeBannerIndicator(v, x, y, z, now);
    assert '?' !in BannerHref("a") by {
      BannerHrefNoQuery("a");
    }
    DigitsOf300And250();
  }

  lemma DigitsOf300And250()
    ensures IntToDecimal(300) == "300" && IntToDecimal(250) == "250"
    ensures IntToDecimal(300) + " x " + IntToDecimal(250) == "300 x 250"
  {
    assert NatToDecimal(3) == "3" && NatToDecimal(2) == "2";
    assert NatToDecimal(30) == "30" && NatToDecimal(25) == "25";
  }
}
