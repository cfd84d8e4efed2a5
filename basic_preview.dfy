/** The `Preview` controller of base/js/main.js: nav headings and lists appended
    straight into `.bannernav`, arrow keys that walk `this.links` with a post-increment
    (`array[this.currentFormat++]`), and nav anchors that load their banner on click.

    As in the other variant, the page is abstracted into the record `View`, the class
    `Preview` holds the same state in fields, and each method is specified by a step
    function on `View` with an `F` suffix. */
module BasicPreview {
  import opened Decimal
  import opened PropertyKeys
  import opened Grouping
  import opened Page
  import opened Arith

  const LinkClass: string := "done"

  const KeyLeft: int := 37
  const KeyRight: int := 39

  /** The abstract page state the controller reads and writes. */
  datatype View = View(
    currentFormat: int,
    nav: seq<Node>,                 // children of `.bannernav`
    links: seq<Anchor>,             // `this.links`
    iframeSrc: string,
    onload: Option<Anchor>,         // the target captured by the current `iframe.onload`
    frame: FrameState,              // Loading: iframe hidden and `.loading` shown
    frameWidth: string,
    frameHeight: string,
    keydownListeners: nat,
    linkListeners: nat)             // click listeners on each current nav anchor

  /** State right after the constructor; `_getData` has not answered yet. */
  function InitialF(): View {
    BindEventsF(BindSelectorsF(View(0, [], [], "", None, Idle, "", "", 0, 0)))
  }

  /** One `h1` and one `ul` of `a.done` anchors per key, in key order. */
  function HeadedLists(keys: seq<string>, groups: map<string, seq<Descriptor>>): seq<Node>
    requires forall k :: k in keys ==> k in groups
  {
    if |keys| == 0 then []
    else
      var k := keys[|keys| - 1];
      assert k in keys;
      HeadedLists(keys[..|keys| - 1], groups) + [Heading(k), List(Anchors(groups[k], LinkClass))]
  }

  /** The `Object.keys(groups).forEach` loop of `_appendLinks`. */
  method RenderNav(keys: seq<string>, groups: map<string, seq<Descriptor>>) returns (nav: seq<Node>)
    requires forall k :: k in keys ==> k in groups
    ensures nav == HeadedLists(keys, groups)
  {
    nav := [];
    var i := 0;
    while i < |keys|
      invariant 0 <= i <= |keys|
      invariant nav == HeadedLists(keys[..i], groups)
    {
      assert keys[i] in keys;
      nav := nav + [Heading(keys[i])];
      var ul := RenderList(groups[keys[i]], LinkClass);
      nav := nav + [List(ul)];
      HeadedListsStep(keys, groups, i);
      i := i + 1;
    }
    assert keys[..i] == keys;
  }

  lemma HeadedListsStep(keys: seq<string>, groups: map<string, seq<Descriptor>>, i: nat)
    requires forall k :: k in keys ==> k in groups
    requires i < |keys|
    ensures keys[i] in groups
    ensures HeadedLists(keys[..i + 1], groups) ==
      HeadedLists(keys[..i], groups) + [Heading(keys[i]), List(Anchors(groups[keys[i]], LinkClass))]
  {
    assert keys[i] in keys;
    assert keys[..i + 1][..i] == keys[..i];
  }

  /** The heading of key `i` is node `2 i`, its list node `2 i + 1`. */
  lemma {:induction false} HeadedListsShape(keys: seq<string>, groups: map<string, seq<Descriptor>>)
    requires forall k :: k in keys ==> k in groups
    ensures |HeadedLists(keys, groups)| == 2 * |keys|
    ensures forall i :: 0 <= i < |keys| ==>
      && HeadedLists(keys, groups)[2 * i] == Heading(keys[i])
      && HeadedLists(keys, groups)[2 * i + 1] == List(Anchors(groups[keys[i]], LinkClass))
  {
    if |keys| > 0 {
      var n := |keys| - 1;
      var init, front := keys[..n], HeadedLists(keys[..n], groups);
      HeadedListsShape(init, groups);
      assert keys[..n + 1] == keys;
      HeadedListsStep(keys, groups, n);
      var r := HeadedLists(keys, groups);
      assert r == front + [Heading(keys[n]), List(Anchors(groups[keys[n]], LinkClass))];
      assert |front| == 2 * n;
      forall i | 0 <= i < |keys|
        ensures r[2 * i] == Heading(keys[i])
        ensures r[2 * i + 1] == List(Anchors(groups[keys[i]], LinkClass))
      {
        if i < n {
          assert 2 * i + 1 < 2 * n;
          assert init[i] == keys[i];
          assert r[2 * i] == front[2 * i];
          assert r[2 * i + 1] == front[2 * i + 1];
        } else {
          assert i == n;
          assert r[2 * n] == Heading(keys[n]);
          assert r[2 * n + 1] == List(Anchors(groups[keys[n]], LinkClass));
        }
      }
    }
  }

  /** The anchors under the headings are the groups' descriptors, flattened in key order. */
  lemma {:induction false} HeadedListsAnchors(keys: seq<string>, data: seq<Descriptor>)
    requires forall k :: k in keys ==> k in FirstSeen(data)
    ensures AnchorsOf(HeadedLists(keys, GroupMap(data))) == Anchors(Flatten(keys, data), LinkClass)
  {
    if |keys| > 0 {
      var init, k := keys[..|keys| - 1], keys[|keys| - 1];
      assert k in keys;
      HeadedListsAnchors(init, data);
      AnchorsOfHeaded(HeadedLists(init, GroupMap(data)), k, Anchors(Members(data, k), LinkClass));
      AnchorsAppend(Flatten(init, data), Members(data, k), LinkClass);
    }
  }

  /** A heading holds no anchor; a list holds its items. */
  lemma AnchorsOfHeaded(front: seq<Node>, k: string, items: seq<Anchor>)
    ensures AnchorsOf(front + [Heading(k), List(items)]) == AnchorsOf(front) + items
  {
    AnchorsOfSnoc(front, Heading(k));
    AnchorsOfSnoc(front + [Heading(k)], List(items));
    assert front + [Heading(k), List(items)] == front + [Heading(k)] + [List(items)];
  }

  /** After rendering, `this.links` lists one `a.done` anchor per descriptor, in nav order. */
  lemma NavLinks(data: seq<Descriptor>)
    ensures forall k :: k in OwnKeys(FirstSeen(data)) ==> k in GroupMap(data)
    ensures AnchorsOf(HeadedLists(OwnKeys(FirstSeen(data)), GroupMap(data))) ==
      Anchors(GroupedOrder(data), LinkClass)
    ensures |Anchors(GroupedOrder(data), LinkClass)| == |data|
  {
    OrderedKeys(data);
    HeadedListsAnchors(OwnKeys(FirstSeen(data)), data);
    PartitionPermutation(data);
    assert |multiset(GroupedOrder(data))| == |multiset(data)|;
  }

  // ---- step functions -------------------------------------------------------

  /** `_bindSelectors`: re-read `this.links` from the page. */
  function BindSelectorsF(v: View): View {
    v.(links := AnchorsOf(v.nav))
  }

  /** `_bindEvents`: one more keydown listener, one more click listener per anchor. */
  function BindEventsF(v: View): View {
    v.(keydownListeners := v.keydownListeners + 1, linkListeners := v.linkListeners + 1)
  }

  /** `_loadFormat({target: t})`: the iframe is hidden behind the loading indicator
      and pointed at the anchor's href, exactly as written. */
  function LoadFormatF(v: View, t: Option<Anchor>): View {
    if t.None? || t.value.href == "" then v
    else v.(frame := Loading, iframeSrc := t.value.href, onload := t)
  }

  /** `_nextFormat(this.links)`: the anchor at the selection, then the selection moves on. */
  function NextFormatF(v: View): (View, Option<Anchor>) {
    (v.(currentFormat := v.currentFormat + 1), At(v.links, v.currentFormat))
  }

  function PrevFormatF(v: View): (View, Option<Anchor>) {
    (v.(currentFormat := v.currentFormat - 1), At(v.links, v.currentFormat))
  }

  /** `_onKeyDown`. Reading `.href` of `undefined` throws, which ends the handler after
      the selection moved and before the source or the wrap-around is touched. */
  function OnKeyDownF(v: View, code: int): View {
    if code == KeyLeft then
      var (w, x) := PrevFormatF(v);
      if x.None? then w
      else
        var w := w.(iframeSrc := x.value.href);
        if w.currentFormat == -1 then w.(currentFormat := |w.links| - 1) else w
    else if code == KeyRight then
      var (w, x) := NextFormatF(v);
      if x.None? then w
      else
        var w := w.(iframeSrc := x.value.href);
        if w.currentFormat == |w.links| then w.(currentFormat := 0) else w
    else v
  }

  /** `_onClick` on anchor `a`. */
  function OnClickF(v: View, a: Anchor): View {
    LoadFormatF(v, Some(a))
  }

  /** The `iframe.onload` closure of the last `_loadFormat`. Without a readable document
      it does nothing (and an exception from a cross-origin frame is not caught). */
  function FrameLoadedF(v: View, outcome: Inspection): View {
    match v.onload
    case None => v
    case Some(a) =>
      if outcome.Accessible? then
        v.(frameWidth := a.dataWidth + "px", frameHeight := a.dataHeight + "px", frame := Visible)
      else v
  }

  /** `_appendLinks(data)`; a TypeError from the grouping loop ends it right after the
      nav was cleared. */
  function AppendLinksF(v: View, data: seq<Descriptor>): View {
    var cleared := v.(nav := []);
    if !GroupsCleanly(data) then cleared
    else
      var keys := OwnKeys(FirstSeen(data));
      NavKeysGrouped(data);
      var rendered := cleared.(nav := HeadedLists(keys, GroupMap(data)), linkListeners := 0);
      var bound := BindEventsF(BindSelectorsF(rendered));
      if |bound.links| > 0 then LoadFormatF(bound, Some(bound.links[0])) else bound
  }

  /** The handler run `n` times, once per registered listener. */
  function KeyDownTimes(v: View, code: int, n: nat): View
    decreases n
  {
    if n == 0 then v else KeyDownTimes(OnKeyDownF(v, code), code, n - 1)
  }

  function ClickTimes(v: View, a: Anchor, n: nat): View
    decreases n
  {
    if n == 0 then v else ClickTimes(OnClickF(v, a), a, n - 1)
  }

  /** A key press: every keydown listener runs `_onKeyDown`. */
  function KeyEventF(v: View, code: int): View {
    KeyDownTimes(v, code, v.keydownListeners)
  }

  /** A click on nav anchor `j`. */
  function LinkClickF(v: View, j: nat): View
    requires j < |v.links|
  {
    ClickTimes(v, v.links[j], v.linkListeners)
  }

  // ---- the controller -------------------------------------------------------

  class Preview {
    var currentFormat: int
    var nav: seq<Node>
    var links: seq<Anchor>
    var iframeSrc: string
    var onload: Option<Anchor>
    var frame: FrameState
    var frameWidth: string
    var frameHeight: string
    var keydownListeners: nat
    var linkListeners: nat

    function Snapshot(): View
      reads this
    {
      View(currentFormat, nav, links, iframeSrc, onload, frame, frameWidth, frameHeight,
           keydownListeners, linkListeners)
    }

    constructor ()
      ensures Snapshot() == InitialF()
    {
      currentFormat := 0;
      nav, links := [], [];
      iframeSrc, onload, frame := "", None, Idle;
      frameWidth, frameHeight := "", "";
      keydownListeners, linkListeners := 0, 0;
      new;
      BindSelectors();
      BindEvents();
    }

    method BindSelectors()
      modifies this
      ensures Snapshot() == BindSelectorsF(old(Snapshot()))
    {
      links := AnchorsOf(nav);
    }

    method BindEvents()
      modifies this
      ensures Snapshot() == BindEventsF(old(Snapshot()))
    {
      keydownListeners := keydownListeners + 1;
      linkListeners := linkListeners + 1;
    }

    method AppendLinks(data: seq<Descriptor>)
      modifies this
      ensures Snapshot() == AppendLinksF(old(Snapshot()), data)
    {
      ghost var v := Snapshot();
      nav := [];
      var ok, keys, groups := GroupByLanguage(data);
      if !ok {
        return;
      }
      NavKeysGrouped(data);
      var rendered := RenderNav(OwnKeys(keys), groups);
      nav := rendered;
      linkListeners := 0;  // the anchors are new elements
      ghost var r := Snapshot();
      assert r == v.(nav := rendered, linkListeners := 0);
      BindSelectors();
      BindEvents();
      assert Snapshot() == BindEventsF(BindSelectorsF(r));
      if |links| > 0 {
        LoadFormat(Some(links[0]));
      }
    }

    method LoadFormat(t: Option<Anchor>)
      modifies this
      ensures Snapshot() == LoadFormatF(old(Snapshot()), t)
    {
      if t.Some? && t.value.href != "" {
        frame := Loading;
        iframeSrc := t.value.href;
        onload := t;
      }
    }

    method NextFormat(items: seq<Anchor>) returns (r: Option<Anchor>)
      modifies this
      ensures r == At(items, old(currentFormat))
      ensures Snapshot() == old(Snapshot()).(currentFormat := old(currentFormat) + 1)
    {
      r := At(items, currentFormat);
      currentFormat := currentFormat + 1;
    }

    method PrevFormat(items: seq<Anchor>) returns (r: Option<Anchor>)
      modifies this
      ensures r == At(items, old(currentFormat))
      ensures Snapshot() == old(Snapshot()).(currentFormat := old(currentFormat) - 1)
    {
      r := At(items, currentFormat);
      currentFormat := currentFormat - 1;
    }

    method OnKeyDown(code: int)
      modifies this
      ensures Snapshot() == OnKeyDownF(old(Snapshot()), code)
    {
      if code == KeyLeft {
        var x := PrevFormat(links);
        if x.None? {
          return;  // TypeError: cannot read `href` of undefined
        }
        iframeSrc := x.value.href;
        if currentFormat == -1 {
          currentFormat := |links| - 1;
        }
      } else if code == KeyRight {
        var x := NextFormat(links);
        if x.None? {
          return;
        }
        iframeSrc := x.value.href;
        if currentFormat == |links| {
          currentFormat := 0;
        }
      }
    }

    method OnClick(a: Anchor)
      modifies this
      ensures Snapshot() == OnClickF(old(Snapshot()), a)
    {
      LoadFormat(Some(a));
    }

    method FrameLoaded(outcome: Inspection)
      modifies this
      ensures Snapshot() == FrameLoadedF(old(Snapshot()), outcome)
    {
      if onload.Some? && outcome.Accessible? {
        frameWidth := onload.value.dataWidth + "px";
        frameHeight := onload.value.dataHeight + "px";
        frame := Visible;
      }
    }
  }

  // ---- properties ------------------------------------------------------------

  /** Inside a non-empty nav, Right shows the anchor at the selection and moves the
      selection one place forward, wrapping at the end. */
  lemma RightPress(v: View)
    requires 0 <= v.currentFormat < |v.links|
    ensures OnKeyDownF(v, KeyRight) ==
      v.(iframeSrc := v.links[v.currentFormat].href, currentFormat := (v.currentFormat + 1) % |v.links|)
  {
    var n, i := |v.links|, v.currentFormat;
    if i + 1 < n { ModUnique(i + 1, n, 0, i + 1); } else { ModUnique(i + 1, n, 1, 0); }
  }

  /** Left shows the anchor at the selection and moves the selection one place back,
      wrapping at the start. */
  lemma LeftPress(v: View)
    requires 0 <= v.currentFormat < |v.links|
    ensures OnKeyDownF(v, KeyLeft) ==
      v.(iframeSrc := v.links[v.currentFormat].href, currentFormat := (v.currentFormat - 1) % |v.links|)
  {
    var n, i := |v.links|, v.currentFormat;
    if i == 0 { ModUnique(-1, n, -1, n - 1); } else { ModUnique(i - 1, n, 0, i - 1); }
  }

  /** With the selection outside the links (an empty nav, or after running off its end),
      an arrow key still moves the selection but throws before touching the frame. */
  lemma OutOfRangePress(v: View, code: int)
    requires !(0 <= v.currentFormat < |v.links|)
    ensures code == KeyRight ==> OnKeyDownF(v, code) == v.(currentFormat := v.currentFormat + 1)
    ensures code == KeyLeft ==> OnKeyDownF(v, code) == v.(currentFormat := v.currentFormat - 1)
    ensures code != KeyLeft && code != KeyRight ==> OnKeyDownF(v, code) == v
  {
  }

  /** A selection past the end never comes back by pressing Right: each run of the
      handler throws, and the frame keeps its source. */
  lemma {:induction false} StuckPastEnd(v: View, k: nat)
    requires v.currentFormat >= |v.links|
    ensures KeyDownTimes(v, KeyRight, k) == v.(currentFormat := v.currentFormat + k)
    decreases k
  {
    if k > 0 {
      OutOfRangePress(v, KeyRight);
      StuckPastEnd(v.(currentFormat := v.currentFormat + 1), k - 1);
    }
  }

  /** `k` runs of the Right handler from a valid selection: the selection advances by
      `k` with wrap-around, and the frame shows the anchor one place behind it. */
  lemma {:induction false} RightPresses(v: View, k: nat)
    requires 0 <= v.currentFormat < |v.links|
    ensures KeyDownTimes(v, KeyRight, k).links == v.links
    ensures KeyDownTimes(v, KeyRight, k).onload == v.onload
    ensures KeyDownTimes(v, KeyRight, k).currentFormat == (v.currentFormat + k) % |v.links|
    ensures k > 0 ==> (KeyDownTimes(v, KeyRight, k).iframeSrc ==
                       v.links[(v.currentFormat + k - 1) % |v.links|].href)
    decreases k
  {
    var n := |v.links|;
    if k == 0 {
      ModUnique(v.currentFormat, n, 0, v.currentFormat);
    } else {
      var w := OnKeyDownF(v, KeyRight);
      var r := KeyDownTimes(w, KeyRight, k - 1);
      assert w == v.(iframeSrc := v.links[v.currentFormat].href, currentFormat := (v.currentFormat + 1) % n) by {
        RightPress(v);
      }
      assert KeyDownTimes(v, KeyRight, k) == r;
      assert r.links == w.links && r.onload == w.onload
          && r.currentFormat == (w.currentFormat + (k - 1)) % n
          && (k - 1 > 0 ==> r.iframeSrc == w.links[(w.currentFormat + (k - 1) - 1) % n].href) by {
        RightPresses(w, k - 1);
      }
      assert (w.currentFormat + (k - 1)) % n == (v.currentFormat + k) % n by {
        ModNext(v.currentFormat, w.currentFormat, k, n);
      }
      if k > 1 {
        assert (w.currentFormat + (k - 1) - 1) % n == (v.currentFormat + k - 1) % n by {
          ModNext(v.currentFormat, w.currentFormat, k - 1, n);
        }
      } else {
        ModUnique(v.currentFormat, n, 0, v.currentFormat);
      }
    }
  }

  /** `k` runs of the Left handler from a valid selection: the selection moves back by
      `k` with wrap-around, and the frame shows the anchor one place ahead of it. */
  lemma {:induction false} LeftPresses(v: View, k: nat)
    requires 0 <= v.currentFormat < |v.links|
    ensures KeyDownTimes(v, KeyLeft, k).links == v.links
    ensures KeyDownTimes(v, KeyLeft, k).onload == v.onload
    ensures KeyDownTimes(v, KeyLeft, k).currentFormat == (v.currentFormat - k) % |v.links|
    ensures k > 0 ==> (KeyDownTimes(v, KeyLeft, k).iframeSrc ==
                       v.links[(v.currentFormat - k + 1) % |v.links|].href)
    decreases k
  {
    var n := |v.links|;
    if k == 0 {
      ModUnique(v.currentFormat, n, 0, v.currentFormat);
    } else {
      var w := OnKeyDownF(v, KeyLeft);
      var r := KeyDownTimes(w, KeyLeft, k - 1);
      assert w == v.(iframeSrc := v.links[v.currentFormat].href, currentFormat := (v.currentFormat - 1) % n) by {
        LeftPress(v);
      }
      assert KeyDownTimes(v, KeyLeft, k) == r;
      assert r.links == w.links && r.onload == w.onload
          && r.currentFormat == (w.currentFormat - (k - 1)) % n
          && (k - 1 > 0 ==> r.iframeSrc == w.links[(w.currentFormat - (k - 1) + 1) % n].href) by {
        LeftPresses(w, k - 1);
      }
      assert (w.currentFormat - (k - 1)) % n == (v.currentFormat - k) % n by {
        ModPrev(v.currentFormat, w.currentFormat, k, n);
      }
      if k > 1 {
        assert (w.currentFormat - (k - 1) + 1) % n == (v.currentFormat - k + 1) % n by {
          ModPrev(v.currentFormat, w.currentFormat, k - 1, n);
        }
      } else {
        ModUnique(v.currentFormat, n, 0, v.currentFormat);
      }
    }
  }

  /** Keys other than the two arrows are ignored by every listener. */
  lemma {:induction false} OtherKeysIgnored(v: View, code: int, k: nat)
    requires code != KeyLeft && code != KeyRight
    ensures KeyDownTimes(v, code, k) == v
    decreases k
  {
    if k > 0 {
      OtherKeysIgnored(v, code, k - 1);
    }
  }

  /** Arrow keys neither reload the banner nor replace the `onload` handler: the load
      they start is sized with the dimensions of the anchor last loaded by a click or at
      start-up, whichever banner the new source shows. */
  lemma KeysKeepOnload(v: View, code: int, outcome: Inspection)
    requires v.onload.Some? && outcome.Accessible?
    ensures OnKeyDownF(v, code).onload == v.onload
    ensures OnKeyDownF(v, code).frame == v.frame
    ensures FrameLoadedF(OnKeyDownF(v, code), outcome).frameWidth == v.onload.value.dataWidth + "px"
    ensures FrameLoadedF(OnKeyDownF(v, code), outcome).frameHeight == v.onload.value.dataHeight + "px"
  {
  }

  /** Clicking a nav anchor loads its banner and leaves the keyboard selection alone,
      however many listeners run. */
  lemma {:induction false} LinkClickLoads(v: View, a: Anchor, k: nat)
    requires a.href != "" && k >= 1
    ensures ClickTimes(v, a, k) == v.(frame := Loading, iframeSrc := a.href, onload := Some(a))
    decreases k
  {
    if k > 1 {
      LinkClickLoads(OnClickF(v, a), a, k - 1);
    }
  }

  /** A load points the frame at the plain href; once the frame's document is readable it
      takes the anchor's size and is shown, with or without a `#banner` element, and
      otherwise it stays hidden behind the loading indicator. */
  lemma LoadThenInspect(v: View, a: Anchor, outcome: Inspection)
    requires a.href != ""
    ensures var w := FrameLoadedF(LoadFormatF(v, Some(a)), outcome);
      && w.iframeSrc == a.href && w.onload == Some(a)
      && (outcome.Accessible? ==>
            w.frameWidth == a.dataWidth + "px" && w.frameHeight == a.dataHeight + "px" && w.frame == Visible)
      && (!outcome.Accessible? ==>
            w.frame == Loading && w.frameWidth == v.frameWidth && w.frameHeight == v.frameHeight)
  {
  }

  /** Only the most recent `_loadFormat` decides what the next load event shows. */
  lemma LatestTargetWins(v: View, a: Anchor, b: Anchor, outcome: Inspection)
    requires b.href != ""
    ensures FrameLoadedF(LoadFormatF(LoadFormatF(v, Some(a)), Some(b)), outcome) ==
      FrameLoadedF(LoadFormatF(v, Some(b)), outcome)
  {
  }

  /** The nav anchors of a rendered manifest: class `done`, a non-empty href each. */
  lemma RenderedLinks(data: seq<Descriptor>)
    ensures forall i :: 0 <= i < |Anchors(GroupedOrder(data), LinkClass)| ==>
      Anchors(GroupedOrder(data), LinkClass)[i].href != ""
  {
    var r := Anchors(GroupedOrder(data), LinkClass);
    forall i | 0 <= i < |r| ensures r[i].href != "" {
      assert |BannerHref(GroupedOrder(data)[i].name)| > 0;
    }
  }

  /** What `_appendLinks` leaves behind: after a TypeError in the grouping loop only the
      cleared nav; otherwise a heading and a list per language in `Object.keys` order,
      one link per descriptor, one more listener of each kind (one on each new anchor),
      and the first banner loaded from its plain href when there is one. */
  lemma AppendLinksOutcome(v: View, data: seq<Descriptor>)
    ensures !GroupsCleanly(data) ==> AppendLinksF(v, data) == v.(nav := [])
    ensures GroupsCleanly(data) ==>
      var w := AppendLinksF(v, data);
      && (forall k :: k in OwnKeys(FirstSeen(data)) ==> k in GroupMap(data))
      && w.nav == HeadedLists(OwnKeys(FirstSeen(data)), GroupMap(data))
      && w.links == Anchors(GroupedOrder(data), LinkClass)
      && |w.links| == |data|
      && w.keydownListeners == v.keydownListeners + 1
      && w.linkListeners == 1
      && w.currentFormat == v.currentFormat
      && w.frameWidth == v.frameWidth && w.frameHeight == v.frameHeight
      && (|data| > 0 ==> (w.iframeSrc == BannerHref(GroupedOrder(data)[0].name)
                         && w.onload == Some(w.links[0]) && w.frame == Loading))
      && (|data| == 0 ==> w.iframeSrc == v.iframeSrc && w.onload == v.onload && w.frame == v.frame)
  {
    if GroupsCleanly(data) {
      NavLinks(data);
      RenderedLinks(data);
    }
  }

  /** After start-up and a manifest that renders, two keydown listeners are registered:
      one Right press shows the second banner and leaves the selection on the third. */
  lemma StartupRightPress(data: seq<Descriptor>)
    requires GroupsCleanly(data) && |data| > 0
    ensures
      var s := AppendLinksF(InitialF(), data);
      && s.keydownListeners == 2 && s.linkListeners == 1 && |s.links| == |data|
      && KeyEventF(s, KeyRight).iframeSrc == s.links[1 % |data|].href
      && KeyEventF(s, KeyRight).currentFormat == 2 % |data|
  {
    var s := AppendLinksF(InitialF(), data);
    assert s.currentFormat == 0 && s.keydownListeners == 2 && s.linkListeners == 1
        && |s.links| == |data| by {
      AppendLinksOutcome(InitialF(), data);
    }
    assert KeyEventF(s, KeyRight) == KeyDownTimes(s, KeyRight, 2);
    RightPresses(s, 2);
  }

  // ---- a session of user events ---------------------------------------------

  /** What the page delivers: key presses, clicks on nav anchors and frame loads. */
  datatype Event =
    | KeyPress(code: int)
    | LinkClick(index: nat)
    | FrameLoad(outcome: Inspection)

  function StepF(v: View, e: Event): View {
    match e
    case KeyPress(code) => KeyEventF(v, code)
    case LinkClick(j) => if j < |v.links| then LinkClickF(v, j) else v
    case FrameLoad(outcome) => FrameLoadedF(v, outcome)
  }

  function Run(v: View, events: seq<Event>): View
    decreases |events|
  {
    if |events| == 0 then v else Run(StepF(v, events[0]), events[1..])
  }

  /** What one event may not change: nav, links and listener counts stay, and a valid
      selection stays valid. */
  predicate Keeps(v: View, w: View) {
    && w.nav == v.nav && w.links == v.links
    && w.keydownListeners == v.keydownListeners && w.linkListeners == v.linkListeners
    && (0 <= v.currentFormat < |v.links| ==> 0 <= w.currentFormat < |w.links|)
  }

  lemma OnKeyDownKeeps(v: View, code: int)
    ensures Keeps(v, OnKeyDownF(v, code))
  {
  }

  lemma {:induction false} KeyDownTimesKeeps(v: View, code: int, k: nat)
    ensures Keeps(v, KeyDownTimes(v, code, k))
    decreases k
  {
    if k > 0 {
      OnKeyDownKeeps(v, code);
      KeyDownTimesKeeps(OnKeyDownF(v, code), code, k - 1);
    }
  }

  lemma {:induction false} ClickTimesKeeps(v: View, a: Anchor, k: nat)
    ensures Keeps(v, ClickTimes(v, a, k))
    decreases k
  {
    if k > 0 {
      ClickTimesKeeps(OnClickF(v, a), a, k - 1);
    }
  }

  lemma StepKeeps(v: View, e: Event)
    ensures Keeps(v, StepF(v, e))
  {
    match e
    case KeyPress(code) => KeyDownTimesKeeps(v, code, v.keydownListeners);
    case LinkClick(j) =>
      if j < |v.links| {
        ClickTimesKeeps(v, v.links[j], v.linkListeners);
      }
    case FrameLoad(outcome) =>
  }

  /** No sequence of user events changes the nav, the links or the listeners, or moves a
      valid selection out of the links. */
  // The same induction over `Run` as ControlsPreview.RunKeeps, for this variant's events.
  lemma {:induction false} RunKeeps(v: View, events: seq<Event>)
    ensures Keeps(v, Run(v, events))
    decreases |events|
  {
    if |events| > 0 {
      StepKeeps(v, events[0]);
      RunKeeps(StepF(v, events[0]), events[1..]);
    }
  }

  /** After start-up with a non-empty manifest, the selection stays a valid index of the
      rendered links for the whole session. */
  lemma Session(data: seq<Descriptor>, events: seq<Event>)
    requires GroupsCleanly(data) && |data| > 0
    ensures var w := Run(AppendLinksF(InitialF(), data), events);
      && w.links == Anchors(GroupedOrder(data), LinkClass)
      && 0 <= w.currentFormat < |w.links|
  {
    var s := AppendLinksF(InitialF(), data);
    assert s.links == Anchors(GroupedOrder(data), LinkClass) && s.currentFormat == 0
        && |s.links| == |data| by {
      AppendLinksOutcome(InitialF(), data);
    }
    RunKeeps(s, events);
  }

  // ---- before the manifest arrives -------------------------------------------

  /** The page while `_getData` is pending: the state the constructor left, with the
      selection wherever the arrows moved it. */
  predicate Waiting(v: View) {
    v == InitialF().(currentFormat := v.currentFormat)
  }

  lemma WaitingStep(v: View, e: Event)
    requires Waiting(v)
    ensures Waiting(StepF(v, e))
  {
    match e
    case KeyPress(code) =>
      assert v.keydownListeners == 1 && v.links == [];
      assert KeyDownTimes(v, code, 1) == OnKeyDownF(v, code);
      OutOfRangePress(v, code);
    case LinkClick(j) =>
    case FrameLoad(outcome) =>
  }

  // The same induction over `Run` as ControlsPreview.WaitingRun, for this variant's events.
  lemma {:induction false} WaitingRun(v: View, events: seq<Event>)
    requires Waiting(v)
    ensures Waiting(Run(v, events))
    decreases |events|
  {
    if |events| > 0 {
      WaitingStep(v, events[0]);
      WaitingRun(StepF(v, events[0]), events[1..]);
    }
  }

  /** Events before the manifest arrives find no links: every arrow press throws right
      after moving the selection, so the selection is all they leave behind, and
      `_appendLinks` renders as if they had not happened, keeping that selection. */
  lemma BeforeTheManifest(data: seq<Descriptor>, before: seq<Event>)
    ensures var u := Run(InitialF(), before);
      && u == InitialF().(currentFormat := u.currentFormat)
      && AppendLinksF(u, data) == AppendLinksF(InitialF(), data).(currentFormat := u.currentFormat)
  {
    WaitingRun(InitialF(), before);
  }

  /** `_appendLinks` does not reset `currentFormat`: one Right press before a one-banner
      manifest arrives leaves the selection one past the end, and from there no number
      of Right-handler runs shows a banner again. */
  lemma EarlyRightPress(d: Descriptor, k: nat)
    requires GroupsCleanly([d])
    ensures var s := AppendLinksF(KeyEventF(InitialF(), KeyRight), [d]);
      && |s.links| == 1 && s.currentFormat == 1
      && KeyDownTimes(s, KeyRight, k) == s.(currentFormat := 1 + k)
  {
    var v := InitialF();
    assert v.keydownListeners == 1 && v.links == [] && v.currentFormat == 0;
    assert KeyDownTimes(v, KeyRight, 1) == OnKeyDownF(v, KeyRight);
    var u := KeyEventF(v, KeyRight);
    assert u == v.(currentFormat := 1);
    var s := AppendLinksF(u, [d]);
    AppendLinksOutcome(u, [d]);
    StuckPastEnd(s, k);
  }

  /** From that state a Left press brings the selection back: of its two handler runs
      the first throws on `links[1]` after moving to 0, and the second shows `links[0]`
      and wraps -1 back to 0. */
  lemma EarlyRightThenLeft(d: Descriptor)
    requires GroupsCleanly([d])
    ensures var s := AppendLinksF(KeyEventF(InitialF(), KeyRight), [d]);
      && |s.links| == 1
      && KeyEventF(s, KeyLeft).currentFormat == 0
      && KeyEventF(s, KeyLeft).iframeSrc == s.links[0].href
  {
    var v := InitialF();
    assert v.keydownListeners == 1 && v.links == [] && v.currentFormat == 0;
    assert KeyDownTimes(v, KeyRight, 1) == OnKeyDownF(v, KeyRight);
    var u := KeyEventF(v, KeyRight);
    assert u == v.(currentFormat := 1);
    var s := AppendLinksF(u, [d]);
    AppendLinksOutcome(u, [d]);
    assert s.keydownListeners == 2 && |s.links| == 1 && s.currentFormat == 1;
    OutOfRangePress(s, KeyLeft);
    var w := s.(currentFormat := 0);
    LeftPress(w);
    assert (0 - 1) % 1 == 0;
    assert KeyEventF(s, KeyLeft) == OnKeyDownF(w, KeyLeft);
  }

  // ---- a three-banner manifest ----------------------------------------------

  /** A manifest x, y, z with x and y in one language and z in another renders the
      heading of x's language, the list x, y, the heading of z's language and the list z. */
  lemma ThreeBannerNav(v: View, x: Descriptor, y: Descriptor, z: Descriptor)
    requires x.language == y.language != z.language
    requires x.language !in PrototypeKeys && z.language !in PrototypeKeys
    requires !IsArrayIndex(x.language) && !IsArrayIndex(z.language)
    ensures AppendLinksF(v, [x, y, z]).nav ==
      [Heading(x.language), List(Anchors([x, y], LinkClass)),
       Heading(z.language), List(Anchors([z], LinkClass))]
  {
    var d := [x, y, z];
    var ks := [x.language, z.language];
    ThreeBannerGrouping(x, y, z);
    ThreeBannerMembers(x, y, z);
    assert AppendLinksF(v, d).nav == HeadedLists(ks, GroupMap(d)) by {
      AppendLinksOutcome(v, d);
    }
    HeadedListsOfTwo(x.language, z.language, GroupMap(d));
  }

  lemma HeadedListsOfTwo(a: string, b: string, groups: map<string, seq<Descriptor>>)
    requires a in groups && b in groups
    ensures HeadedLists([a, b], groups) ==
      [Heading(a), List(Anchors(groups[a], LinkClass)), Heading(b), List(Anchors(groups[b], LinkClass))]
  {
    assert [a, b][..1] == [a];
    assert [a][..0] == [];
    assert HeadedLists([], groups) == [];
    assert HeadedLists([a], groups) == [Heading(a), List(Anchors(groups[a], LinkClass))];
  }

  /** ... and loads x from its plain href. */
  lemma ThreeBannerLoad(v: View, x: Descriptor, y: Descriptor, z: Descriptor)
    requires x.language == y.language != z.language
    requires x.language !in PrototypeKeys && z.language !in PrototypeKeys
    requires !IsArrayIndex(x.language) && !IsArrayIndex(z.language)
    ensures AppendLinksF(v, [x, y, z]).iframeSrc == BannerHref(x.name)
    ensures AppendLinksF(v, [x, y, z]).onload == Some(ToAnchor(x, LinkClass))
  {
    var d := [x, y, z];
    ThreeBannerGrouping(x, y, z);
    AppendLinksOutcome(v, d);
  }
}
