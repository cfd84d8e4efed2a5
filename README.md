# Banner preview controller

The banner-preview page shows a list of HTML5 banners, grouped by language, and
a preview iframe. A `Preview` class drives the page. The page loads a manifest
of banner descriptors `{name, width, height, language}` and groups them into a
nav of links. It loads the first banner into the iframe. Arrow keys and clicks
then move through the banners.

There are two variants of `Preview`, and this project models both:

- **Controls variant** (`4afab02559918b31ba5344b431c329b9ed4e6bda/base/js/main.js`,
  module `ControlsPreview`):
  - the nav is made of `div.language` sections;
  - the selection is stepped *before* loading;
  - every iframe URL gets a `nocache=<timestamp>` parameter;
  - transport buttons (restart, pause, resume, next, prev) share one click handler;
  - a frame that cannot be inspected is replaced by an ad-blocker notice.
- **Basic variant** (`base/js/main.js`, module `BasicPreview`):
  - headings and lists are appended straight into the nav;
  - the arrow keys use a post-increment (`array[currentFormat++]`), so the banner
    shown is the one at the *old* selection;
  - the wrap-around happens afterwards;
  - an out-of-range read throws before the frame is touched.

Shared modules:

| module | what it holds |
|---|---|
| `Grouping` | The `data.forEach` grouping loop. It is modelled as a method over a map and proved equal to a pure stable partition. |
| `PropertyKeys` | The order of `Object.keys`, from section 10.1.11.1 of ECMA-262: array-index keys first in ascending numeric order, then the other keys in creation order. |
| `Page` | Anchors, nav nodes, the iframe's abstract state, the banner href `banners/<name>/index.html`, and `At`, which defines JavaScript's `array[i]` (the element in range, `undefined` outside). |
| `Decimal` | JavaScript's conversion of integers to decimal strings. The data attributes and the cache-busting timestamp use it. |
| `Arith` | Facts about `%`. |

How each variant is modelled:

- The page is abstracted into a record `View`. Its fields are:
  - the selection, the nav nodes and the links;
  - the iframe source;
  - the target captured by the current `iframe.onload` closure;
  - the frame state (Idle, Loading, Visible, Blocked) and the frame size;
  - the number of registered keydown listeners, and of click listeners on each nav anchor;
  - in the controls variant only: the format indicator, the notice, the two button visibilities and the number of click listeners on each `.ad__control`.
- The class `Preview` holds the same state in fields. Each method is proved to
  change it exactly as a pure step function on `View` does, named `XxxF`.
- The lemmas are stated over those step functions.
- `_bindEvents` calls `bind` on every run, so each call registers one more listener
  on `document` and on each `.ad__control`. It runs twice on a successful start: in the
  constructor and again at the end of `_appendLinks`.
  - A single key press therefore runs `_onKeyDown` twice.
  - In the controls variant, a single Right press moves the selection by two.
  - In the basic variant, a single Right press shows the second banner.
- The constructor sets `currentFormat` to 0 before `_getData` is sent, and `_appendLinks`
  never resets it. Arrow presses (and, in the controls variant, next / prev clicks) made
  while the manifest is still loading find no links, but they still move the selection.
  - In the controls variant the selection ends at 0 or -1. After an early Left press,
    -1 survives into the rendered nav until the next arrow press or next / prev click.
  - In the basic variant every early press throws right after moving the selection, so the
    selection can end anywhere. One early Right press before a one-banner manifest leaves
    it past the end, and from there Right never shows a banner again; the next Left press
    brings it back.
  - The `Session` lemmas start once the nav is built. The `BeforeTheManifest`,
    `EarlySession`, `EarlyLeftPress`, `EarlyRightPress` and `EarlyRightThenLeft` lemmas cover
    the events before that.

## Model

| member | source | states |
|---|---|---|
| Decimal.IntToDecimal | 4afab02559918b31ba5344b431c329b9ed4e6bda/base/js/main.js:54-55 | `String(n)` of an integer is non-empty and starts with `-` exactly when the integer is negative. |
| Decimal.DecimalRoundTrip | 4afab02559918b31ba5344b431c329b9ed4e6bda/base/js/main.js:54-55 | The numeral stored in `data-width` / `data-height` reads back as the original number. |
| Decimal.IntToDecimalInjective | 4afab02559918b31ba5344b431c329b9ed4e6bda/base/js/main.js:202 | Different timestamps are written as different numerals. |
| PropertyKeys.OwnKeys | 4afab02559918b31ba5344b431c329b9ed4e6bda/base/js/main.js:39 | `Object.keys(groups)` lists as many keys as were created. |
| PropertyKeys.SortByIndexCorrect | 4afab02559918b31ba5344b431c329b9ed4e6bda/base/js/main.js:39 | The numeric ordering of index keys is a permutation and is ascending. |
| PropertyKeys.OwnKeysPermutation | 4afab02559918b31ba5344b431c329b9ed4e6bda/base/js/main.js:39 | `Object.keys(groups)` lists each created key exactly once. |
| PropertyKeys.OwnKeysIndicesFirst | 4afab02559918b31ba5344b431c329b9ed4e6bda/base/js/main.js:39 | Every key before an array-index key is also an index key, with a smaller or equal value. |
| PropertyKeys.OwnKeysOthersInOrder | 4afab02559918b31ba5344b431c329b9ed4e6bda/base/js/main.js:39 | Non-index keys keep their creation order. |
| PropertyKeys.OwnKeysInsertionOrder | 4afab02559918b31ba5344b431c329b9ed4e6bda/base/js/main.js:39 | With no array-index key, `Object.keys` is exactly creation order. |
| Grouping.GroupByLanguage | 4afab02559918b31ba5344b431c329b9ed4e6bda/base/js/main.js:33-37 | The loop finishes exactly when no language is an inherited `Object.prototype` name. It then leaves the keys in first-occurrence order, with each group holding that language's descriptors in input order. |
| Grouping.ShortKeysAreOwn | 4afab02559918b31ba5344b431c329b9ed4e6bda/base/js/main.js:35-36 | No language shorter than seven characters hits an inherited name, so such a language cannot make `.push` throw. |
| Grouping.MembersOf | 4afab02559918b31ba5344b431c329b9ed4e6bda/base/js/main.js:34-36 | A group holds input descriptors of its own language only. |
| Grouping.FirstSeenLanguages | 4afab02559918b31ba5344b431c329b9ed4e6bda/base/js/main.js:35 | A language is a key iff some descriptor carries it. |
| Grouping.FirstSeenDistinct | 4afab02559918b31ba5344b431c329b9ed4e6bda/base/js/main.js:35 | Each language gets one group. |
| Grouping.FirstIndex | 4afab02559918b31ba5344b431c329b9ed4e6bda/base/js/main.js:35 | The first descriptor carrying a key: it has that language, and no earlier descriptor does. |
| Grouping.FirstSeenOrder | 4afab02559918b31ba5344b431c329b9ed4e6bda/base/js/main.js:33-37 | Keys are created in the order of their languages' first occurrence. |
| Grouping.OrderedKeys | 4afab02559918b31ba5344b431c329b9ed4e6bda/base/js/main.js:39 | The nav keys are distinct and are exactly the languages present. |
| Grouping.FlattenPermutation | 4afab02559918b31ba5344b431c329b9ed4e6bda/base/js/main.js:39-60 | Concatenating the groups of distinct keys that cover every language lists each descriptor exactly once. |
| Grouping.MembersOfFlatten | 4afab02559918b31ba5344b431c329b9ed4e6bda/base/js/main.js:39-60 | Picking one language from the concatenated groups gives that group, or nothing. |
| Grouping.GroupedOrder | 4afab02559918b31ba5344b431c329b9ed4e6bda/base/js/main.js:39-60 | The nav order, group by group in `Object.keys` order, lists as many banners as the manifest has. |
| Grouping.PartitionPermutation | 4afab02559918b31ba5344b431c329b9ed4e6bda/base/js/main.js:33-60 | The nav order is a permutation of the manifest. |
| Grouping.PartitionStable | 4afab02559918b31ba5344b431c329b9ed4e6bda/base/js/main.js:33-60 | Within each language, the nav keeps manifest order. |
| Grouping.FirstSeenKeyOrder | 4afab02559918b31ba5344b431c329b9ed4e6bda/base/js/main.js:33-39 | With no array-index-like language, groups appear in first-occurrence order. |
| Grouping.ThreeBannerGrouping | 4afab02559918b31ba5344b431c329b9ed4e6bda/base/js/main.js:33-39 | For x, y in one language and z in another (ordinary names): the grouping loop succeeds, the keys are [x's language, z's language], and the nav order is x, y, z. |
| Page.BannerHrefName | 4afab02559918b31ba5344b431c329b9ed4e6bda/base/js/main.js:51 | The banner name can be read back from `banners/<name>/index.html`. |
| Page.BannerHrefInjective | 4afab02559918b31ba5344b431c329b9ed4e6bda/base/js/main.js:51 | Different banners get different hrefs. |
| Page.BannerHrefNoQuery | 4afab02559918b31ba5344b431c329b9ed4e6bda/base/js/main.js:51 | An href built from a name without `?` has no query string. |
| Page.Anchors | 4afab02559918b31ba5344b431c329b9ed4e6bda/base/js/main.js:48-58 | There is one anchor per descriptor, position by position: href, class, text and both data attributes. |
| Page.RenderList | 4afab02559918b31ba5344b431c329b9ed4e6bda/base/js/main.js:48-58 | The inner `forEach` builds exactly those anchors. |
| ControlsPreview.AntiCache | 4afab02559918b31ba5344b431c329b9ed4e6bda/base/js/main.js:200-203 | The cache-busting URL is longer than the target and starts with it. |
| ControlsPreview.AntiCacheShape | 4afab02559918b31ba5344b431c329b9ed4e6bda/base/js/main.js:200-203 | The URL is an unchanged prefix. It is followed by `&` when it already has `?` and by `?` otherwise, then by `nocache=<timestamp>`. The result always contains `?`. |
| ControlsPreview.AntiCacheDistinct | 4afab02559918b31ba5344b431c329b9ed4e6bda/base/js/main.js:200-203 | Different timestamps give different URLs for the same target. |
| ControlsPreview.NextIndex | 4afab02559918b31ba5344b431c329b9ed4e6bda/base/js/main.js:97-100 | The pre-increment with wrap stays in range for a non-empty nav and, from a sane selection (at least -1), gives 0 for an empty one. |
| ControlsPreview.PrevIndex | 4afab02559918b31ba5344b431c329b9ed4e6bda/base/js/main.js:106-109 | The pre-decrement with wrap stays in range for a non-empty nav and gives -1 for an empty one. |
| ControlsPreview.IndexWrap | 4afab02559918b31ba5344b431c329b9ed4e6bda/base/js/main.js:95-111 | In range, next is `(i+1) mod n` and prev is `(i-1) mod n`. |
| ControlsPreview.NextPrevRoundTrip | 4afab02559918b31ba5344b431c329b9ed4e6bda/base/js/main.js:95-111 | Next then prev, and prev then next, return to the same index, including across the ends. |
| ControlsPreview.RenderNav | 4afab02559918b31ba5344b431c329b9ed4e6bda/base/js/main.js:39-60 | The key loop builds one `div.language` section per key, in key order. |
| ControlsPreview.SectionsShape | 4afab02559918b31ba5344b431c329b9ed4e6bda/base/js/main.js:39-60 | Section `i` is headed by key `i` and lists that key's group. |
| ControlsPreview.NavLinks | 4afab02559918b31ba5344b431c329b9ed4e6bda/base/js/main.js:39-71 | The links read back from the nav are one `asset-link` anchor per descriptor, in grouped order. |
| ControlsPreview.RenderedLinks | 4afab02559918b31ba5344b431c329b9ed4e6bda/base/js/main.js:48-58 | Every rendered anchor has class `asset-link` and a non-empty href. |
| ControlsPreview.AppendLinksOutcome | 4afab02559918b31ba5344b431c329b9ed4e6bda/base/js/main.js:28-68 | A grouping TypeError leaves only the cleared nav. Otherwise the result has: one section per key, one link per descriptor, one more listener of each kind (one on each new anchor), and the selection, buttons and notice unchanged. `links[0]` is loaded through the cache-busting URL iff the manifest is non-empty. |
| ControlsPreview.ArrowOnce | 4afab02559918b31ba5344b431c329b9ed4e6bda/base/js/main.js:95-124 | One arrow handler, in range, moves the selection by ±1 mod n and loads the newly selected anchor. |
| ControlsPreview.ArrowTimes | 4afab02559918b31ba5344b431c329b9ed4e6bda/base/js/main.js:95-124 | Any number of arrow handler runs keeps nav and links. It keeps the selection in range and leaves the selected anchor loaded. |
| ControlsPreview.RightPresses | 4afab02559918b31ba5344b431c329b9ed4e6bda/base/js/main.js:95-102 | `k` Right runs give selection `(i+k) mod n`, and after at least one run the anchor selected is the one loaded. |
| ControlsPreview.LeftPresses | 4afab02559918b31ba5344b431c329b9ed4e6bda/base/js/main.js:104-111 | `k` Left runs give selection `(i-k) mod n`, and after at least one run the anchor selected is the one loaded. |
| ControlsPreview.EmptyNavArrows | 4afab02559918b31ba5344b431c329b9ed4e6bda/base/js/main.js:95-111 | With no links, Right sets the selection to 0 and Left to -1, and nothing is loaded. |
| ControlsPreview.OtherKeysIgnored | 4afab02559918b31ba5344b431c329b9ed4e6bda/base/js/main.js:113-124 | Other key codes change nothing, however many listeners run. |
| ControlsPreview.TransportButtons | 4afab02559918b31ba5344b431c329b9ed4e6bda/base/js/main.js:126-198 | Restart shows pause and hides resume, but only when the frame has a source. Pause shows resume and hides pause, and resume does the reverse, but only when the frame exposes a timeline. Otherwise each does nothing. |
| ControlsPreview.PauseThenResume | 4afab02559918b31ba5344b431c329b9ed4e6bda/base/js/main.js:162-198 | Resume after pause, or pause after resume, leaves the state the last one alone would. |
| ControlsPreview.ButtonClicksIdempotent | 4afab02559918b31ba5344b431c329b9ed4e6bda/base/js/main.js:88-92 | Running restart, pause or resume once per registered listener has the effect of one run. |
| ControlsPreview.LinkClickLoads | 4afab02559918b31ba5344b431c329b9ed4e6bda/base/js/main.js:139-140 | Clicking a nav anchor loads its banner and leaves the selection alone. |
| ControlsPreview.StartupRightPress | 4afab02559918b31ba5344b431c329b9ed4e6bda/base/js/main.js:4-10 | After start-up there are 2 keydown listeners, 2 per control and 1 per anchor. One Right press selects `2 mod n` and loads that anchor. |
| ControlsPreview.LoadThenInspect | 4afab02559918b31ba5344b431c329b9ed4e6bda/base/js/main.js:205-242 | A readable frame takes the target's size and shows "W x H". It is faded in only when `#banner` exists. An unreadable or throwing frame gets the notice and is hidden. |
| ControlsPreview.LatestTargetWins | 4afab02559918b31ba5344b431c329b9ed4e6bda/base/js/main.js:211 | Only the last `_loadFormat` decides what a load event shows. |
| ControlsPreview.OnClickKeeps | 4afab02559918b31ba5344b431c329b9ed4e6bda/base/js/main.js:126-143 | A click keeps nav, links and listeners. It keeps a sane selection, a selection in range, exclusive buttons and the notice. |
| ControlsPreview.StepKeeps | 4afab02559918b31ba5344b431c329b9ed4e6bda/base/js/main.js:113-242 | So does every user event. |
| ControlsPreview.RunKeeps | 4afab02559918b31ba5344b431c329b9ed4e6bda/base/js/main.js:113-242 | So does any sequence of user events. |
| ControlsPreview.AdBlockIsFinal | 4afab02559918b31ba5344b431c329b9ed4e6bda/base/js/main.js:236-242 | Once the notice is shown and the iframe is hidden, they stay so. |
| ControlsPreview.StartupState | 4afab02559918b31ba5344b431c329b9ed4e6bda/base/js/main.js:4-10 | After start-up: the links are the rendered anchors, the selection is 0, and the buttons are as the page left them. |
| ControlsPreview.Session | 4afab02559918b31ba5344b431c329b9ed4e6bda/base/js/main.js:4-242 | From the moment the nav is built, any sequence of events keeps the links the rendered anchors and the selection sane. With a non-empty manifest the selection stays in range. Pause and resume never show together if they started exclusive. |
| ControlsPreview.BeforeTheManifest | 4afab02559918b31ba5344b431c329b9ed4e6bda/base/js/main.js:4-10 | Events before the manifest arrives load nothing. They leave the constructor's state except for a selection of 0 or -1 and the two buttons, which stay exclusive if they started so. |
| ControlsPreview.EarlyLeftPress | 4afab02559918b31ba5344b431c329b9ed4e6bda/base/js/main.js:104-111 | `_appendLinks` does not reset the selection: one Left press before a one-banner manifest leaves the selection at -1 while banner 0 is loaded. |
| ControlsPreview.ArrowRecovers | 4afab02559918b31ba5344b431c329b9ed4e6bda/base/js/main.js:95-111 | From a sane selection in a non-empty nav, one arrow handler run selects an index again. |
| ControlsPreview.EarlySession | 4afab02559918b31ba5344b431c329b9ed4e6bda/base/js/main.js:4-242 | Including the events before the manifest arrives, the links stay the rendered anchors, the selection stays sane (an index or -1), and exclusive buttons stay exclusive. |
| ControlsPreview.ThreeBannerNav | 4afab02559918b31ba5344b431c329b9ed4e6bda/base/js/main.js:39-60 | x, y in one language and z in another render two sections, [x, y] and [z]. |
| ControlsPreview.ThreeBannerLoad | 4afab02559918b31ba5344b431c329b9ed4e6bda/base/js/main.js:65-67 | Such a manifest links x, y, z in order and loads x through the cache-busting URL. |
| ControlsPreview.ThreeBannerIndicator | 4afab02559918b31ba5344b431c329b9ed4e6bda/base/js/main.js:224-225 | x's successful load shows `<width> x <height>`. |
| ControlsPreview.SampleManifestStartup | 4afab02559918b31ba5344b431c329b9ed4e6bda/base/js/main.js:28-68 | For a(300x250, EN), b(728x90, EN), c(160x600, FR): an EN section listing a and b, then an FR section listing c. a is loaded as `banners/a/index.html?nocache=<t>`. Its load shows "300 x 250". |
| ControlsPreview.Preview.constructor | 4afab02559918b31ba5344b431c329b9ed4e6bda/base/js/main.js:4-10 | Selection 0, empty nav, one listener of each kind. |
| ControlsPreview.Preview.BindSelectors | 4afab02559918b31ba5344b431c329b9ed4e6bda/base/js/main.js:70-74 | `links` becomes the anchors of the nav. |
| ControlsPreview.Preview.BindEvents | 4afab02559918b31ba5344b431c329b9ed4e6bda/base/js/main.js:76-93 | Each call adds one keydown listener, one listener per control and one per anchor. |
| ControlsPreview.Preview.AppendLinks | 4afab02559918b31ba5344b431c329b9ed4e6bda/base/js/main.js:28-68 | Changes the state as `AppendLinksF` does. |
| ControlsPreview.Preview.NextFormat | 4afab02559918b31ba5344b431c329b9ed4e6bda/base/js/main.js:95-102 | Changes the state as `NextFormatF` does. |
| ControlsPreview.Preview.PrevFormat | 4afab02559918b31ba5344b431c329b9ed4e6bda/base/js/main.js:104-111 | Changes the state as `PrevFormatF` does. |
| ControlsPreview.Preview.OnKeyDown | 4afab02559918b31ba5344b431c329b9ed4e6bda/base/js/main.js:113-124 | Changes the state as `OnKeyDownF` does. |
| ControlsPreview.Preview.OnClick | 4afab02559918b31ba5344b431c329b9ed4e6bda/base/js/main.js:126-143 | Dispatches on the class list in the source's order. |
| ControlsPreview.Preview.RestartAnimation | 4afab02559918b31ba5344b431c329b9ed4e6bda/base/js/main.js:145-160 | Changes the state as `RestartAnimationF` does. |
| ControlsPreview.Preview.PauseAnimation | 4afab02559918b31ba5344b431c329b9ed4e6bda/base/js/main.js:162-179 | Changes the state as `PauseAnimationF` does. |
| ControlsPreview.Preview.ResumeAnimation | 4afab02559918b31ba5344b431c329b9ed4e6bda/base/js/main.js:181-198 | Changes the state as `ResumeAnimationF` does. |
| ControlsPreview.Preview.LoadFormat | 4afab02559918b31ba5344b431c329b9ed4e6bda/base/js/main.js:205-234 | Changes the state as `LoadFormatF` does. |
| ControlsPreview.Preview.FrameLoaded | 4afab02559918b31ba5344b431c329b9ed4e6bda/base/js/main.js:211-232 | Changes the state as `FrameLoadedF` does. |
| ControlsPreview.Preview.ShowAdBlockMessage | 4afab02559918b31ba5344b431c329b9ed4e6bda/base/js/main.js:236-242 | Writes the fixed notice and hides the iframe. |
| BasicPreview.RenderNav | base/js/main.js:39-57 | The key loop appends an `h1` and then a `ul` per key, in key order. |
| BasicPreview.HeadedListsShape | base/js/main.js:39-57 | Node `2i` is the heading of key `i`, and node `2i+1` lists that key's group with class `done`. |
| BasicPreview.HeadedListsAnchors | base/js/main.js:39-57 | The anchors under the headings are the groups, concatenated in key order. |
| BasicPreview.NavLinks | base/js/main.js:39-68 | The links read back from the nav are one `done` anchor per descriptor, in grouped order. |
| BasicPreview.RenderedLinks | base/js/main.js:47-52 | Every rendered anchor has a non-empty href. |
| BasicPreview.AppendLinksOutcome | base/js/main.js:28-65 | A grouping TypeError leaves only the cleared nav. Otherwise the result has: headings and lists per key, one link per descriptor, one more keydown listener, and one listener on each new anchor. `links[0]` is loaded from its plain href iff the manifest is non-empty. |
| BasicPreview.RightPress | base/js/main.js:85-87 | In range, Right shows `links[i]` (the old index) and then selects `(i+1) mod n`. |
| BasicPreview.LeftPress | base/js/main.js:89-101 | In range, Left shows `links[i]` and then selects `(i-1) mod n`. |
| BasicPreview.OutOfRangePress | base/js/main.js:85-112 | Out of range, an arrow still moves the selection, but the read throws before the frame is touched. Other keys change nothing. |
| BasicPreview.StuckPastEnd | base/js/main.js:104-109 | A selection past the end only grows under Right presses. The frame is never updated again. |
| BasicPreview.RightPresses | base/js/main.js:104-109 | `k` Right runs select `(i+k) mod n` and show `links[(i+k-1) mod n]`. |
| BasicPreview.LeftPresses | base/js/main.js:96-101 | `k` Left runs select `(i-k) mod n` and show `links[(i-k+1) mod n]`. |
| BasicPreview.OtherKeysIgnored | base/js/main.js:93-112 | Other key codes change nothing, however many listeners run. |
| BasicPreview.KeysKeepOnload | base/js/main.js:98 | Arrow keys keep `iframe.onload`, so the next load is sized by the last clicked or first-loaded anchor. |
| BasicPreview.LinkClickLoads | base/js/main.js:114-117 | A click loads the clicked anchor from its plain href and leaves the selection alone. |
| BasicPreview.LoadThenInspect | base/js/main.js:119-145 | A readable frame takes the target's size and is shown, with or without `#banner`. Otherwise it stays hidden, with no blocked state. |
| BasicPreview.LatestTargetWins | base/js/main.js:127 | Only the last `_loadFormat` decides what a load event shows. |
| BasicPreview.StartupRightPress | base/js/main.js:4-10 | After start-up there are 2 keydown listeners. One Right press shows `links[1 mod n]` and selects `2 mod n`. |
| BasicPreview.OnKeyDownKeeps | base/js/main.js:93-112 | A key press keeps nav, links and listeners, and keeps an in-range selection in range. |
| BasicPreview.StepKeeps | base/js/main.js:93-145 | So does every user event. |
| BasicPreview.RunKeeps | base/js/main.js:93-145 | So does any sequence of user events. |
| BasicPreview.Session | base/js/main.js:4-145 | From the moment the nav is built, with a non-empty manifest, any sequence of events keeps the links the rendered anchors and the selection in range. |
| BasicPreview.BeforeTheManifest | base/js/main.js:4-10 | Events before the manifest arrives leave the constructor's state except for the selection. `_appendLinks` then renders as without them and keeps that selection. |
| BasicPreview.EarlyRightPress | base/js/main.js:104-109 | One Right press before a one-banner manifest leaves the selection at 1, past the end. From there `k` Right runs only add `k` to it and change nothing else. |
| BasicPreview.EarlyRightThenLeft | base/js/main.js:89-101 | From that state one Left press (two handler runs) selects 0 again and shows `links[0]`: the first run throws on `links[1]` after moving, the second shows `links[0]` and wraps -1 to 0. |
| BasicPreview.ThreeBannerNav | base/js/main.js:39-57 | x, y in one language and z in another render heading, [x, y], heading, [z]. |
| BasicPreview.ThreeBannerLoad | base/js/main.js:62-64 | Such a manifest loads x from `banners/<x>/index.html`. |
| BasicPreview.Preview.constructor | base/js/main.js:4-10 | Selection 0, empty nav, one keydown listener. |
| BasicPreview.Preview.BindSelectors | base/js/main.js:67-70 | `links` becomes the anchors of the nav. |
| BasicPreview.Preview.BindEvents | base/js/main.js:72-83 | Each call adds one keydown listener and one listener per anchor. |
| BasicPreview.Preview.AppendLinks | base/js/main.js:28-65 | Changes the state as `AppendLinksF` does. |
| BasicPreview.Preview.NextFormat | base/js/main.js:85-87 | Returns the element at the old selection, then increments the selection. |
| BasicPreview.Preview.PrevFormat | base/js/main.js:89-91 | Returns the element at the old selection, then decrements the selection. |
| BasicPreview.Preview.OnKeyDown | base/js/main.js:93-112 | Changes the state as `OnKeyDownF` does. |
| BasicPreview.Preview.OnClick | base/js/main.js:114-117 | Loads the clicked anchor. |
| BasicPreview.Preview.LoadFormat | base/js/main.js:119-127 | Changes the state as `LoadFormatF` does. |
| BasicPreview.Preview.FrameLoaded | base/js/main.js:127-143 | Changes the state as `FrameLoadedF` does. |

## Left out

- `_getData` is not modelled: the `fetch` of `banners/data.json`, JSON parsing, and `console.log` / `console.error`.
  - This is network I/O, so the descriptor sequence is an input of `AppendLinks`.
  - A TypeError from the grouping loop is caught by that promise chain. The model therefore stops `_appendLinks` after the nav was cleared.
- Every gsap call is left out: fades, the loading overlay, and `_callTooltip`. Only the abstract frame state remains.
  - `Loading` means the iframe is hidden.
  - `Visible` means it was faded in.
  - `Blocked` means the notice replaced it.
- The pause and resume calls on the banner's own gsap timeline are not modelled. Whether the frame exposes a timeline is a boolean input.
- The real DOM is abstracted:
  - node creation, `innerHTML` and `querySelectorAll`;
  - resolving `href` and `src` against the page URL: an href is kept as written;
  - same-origin checks: the result of inspecting the frame is an input (readable with or without `#banner`, unreadable, or throwing).
- The page is assumed to contain no anchors besides the nav. The iframe, `.bannernav`, `.ad`, `.ad__format` and the two buttons are assumed to exist.
  - The iframe's `src` is assumed to start empty, so before the first load `_restartAnimation` does nothing.
  - The initial visibility of pause and resume comes from the page's markup, so it is a parameter of the constructor.
- `new Date().getTime()` is a parameter `now`. All listeners run for one event see the same timestamp.
- `preventDefault` is left out: it has no effect on the modelled state.
- Asynchrony is left out:
  - an `iframe.onload` event is an explicit step with a chosen outcome;
  - interleaving, and several loads in flight, are not modelled.
- The iframe detached by the notice in the controls variant is not modelled. After the notice, later loads still update the abstract frame fields, and `frameDisplayed` stays false.
- Descriptors' `width` and `height` are integers. Non-integer numbers, and numerals JavaScript writes in exponent form (magnitude at or above 1e21), are not modelled.
- Event dispatch is abstracted. Running one handler once per registered listener is a function (`KeyDownTimes`, `ClickTimes` and the `Event` / `Run` session functions), not a method of `Preview`.
- ControlsPreview.Session: starts once the nav is built, so it leaves out events before the manifest arrives. `EarlySession` covers those, but it promises only a sane selection, because an early Left press can leave -1 (`EarlyLeftPress`).
- BasicPreview.Session: starts once the nav is built, so it leaves out events before the manifest arrives. An early press can leave the selection outside the links, where Right presses alone never bring it back (`EarlyRightPress`; a Left press does, `EarlyRightThenLeft`), so no in-range promise covers such a session. `BeforeTheManifest` says what those events leave behind.
- BasicPreview.Session: also assumes a non-empty manifest. With an empty one the selection leaves the (empty) range at the first arrow press. `StuckPastEnd` and `OutOfRangePress` describe that case.
