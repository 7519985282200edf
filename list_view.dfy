/**
 * `BaseListView`: the list-view widget that checks its data provider, decides
 * between the empty-state block and the layout, dispatches layout tokens to
 * its sections, and injects the live pagination and sort into the pager and
 * sorter configurations before handing them to the pager and sorter widgets.
 */
module ListView {
  import opened Wrappers
  import opened Provider
  import Strings
  import Summary
  import Layout

  /** A value in a configuration array. */
  datatype Value =
    | Text(text: string)
    | Number(number: int)
    | PaginationValue(pagination: Pagination)
    | SortValue(sort: Sort)

  /** A PHP configuration array with string keys. */
  type Config = map<string, Value>

  /** The `empty` property: `null`, `false`, `true` or a string. */
  datatype Empty = Unset | Off | On | Message(text: string)

  /**
   * What the view delegates: the subclass's `renderItems()` output, the
   * translated summary templates, the translated "No results found." text,
   * and `$class::widget($config)` for the pager and sorter widgets.
   */
  datatype Collaborators = Collaborators(
    items: string,
    messages: Summary.Messages,
    noResults: string,
    widget: (Value, Config) -> string)

  datatype ConfigError = InvalidConfig(message: string)

  const MissingProvider: ConfigError := InvalidConfig("The \"dataProvider\" property must be set.")
  const LinkPager: Value := Text("yii\\widgets\\LinkPager")
  const LinkSorter: Value := Text("yii\\widgets\\LinkSorter")
  const DefaultTag: Value := Text("div")

  /** `ArrayHelper::remove($m, $key, $default)`: the value under `key` (or the default) and the array without it. */
  function Remove(m: Config, key: string, default: Value): (r: (Value, Config))
    ensures key in m ==> r.0 == m[key]
    ensures key !in m ==> r.0 == default
    ensures key !in r.1
    ensures forall k :: k != key ==> (k in r.1 <==> k in m)
    ensures forall k :: k in r.1 ==> r.1[k] == m[k]
  {
    (if key in m then m[key] else default, m - {key})
  }

  /** `updated` is `original` without `class` and with `key` set to `v`; nothing else differs. */
  ghost predicate Injected(updated: Config, original: Config, key: string, v: Value) {
    && "class" !in updated
    && key in updated && updated[key] == v
    && (forall k :: k != "class" && k != key ==> (k in updated <==> k in original))
    && (forall k :: k in updated && k != key ==> updated[k] == original[k])
  }

  /** The widget class a configuration asks for. */
  function ClassOf(config: Config, default: Value): Value {
    if "class" in config then config["class"] else default
  }

  // ---- the pager and the sorter ----

  predicate PagerShown(dp: DataProvider) {
    dp.pagination.Some? && dp.count > 0
  }

  /** `renderPager()`: its output and the pager configuration it leaves behind. */
  function PagerStep(dp: DataProvider, pager: Config, widget: (Value, Config) -> string): (r: (string, Config))
    ensures !PagerShown(dp) ==> r == ("", pager)
    ensures PagerShown(dp) ==>
      && Injected(r.1, pager, "pagination", PaginationValue(dp.pagination.value))
      && r.0 == widget(ClassOf(pager, LinkPager), r.1)
  {
    if dp.pagination.None? || dp.count <= 0 then ("", pager)
    else
      var (cls, rest) := Remove(pager, "class", LinkPager);
      var config := rest["pagination" := PaginationValue(dp.pagination.value)];
      (widget(cls, config), config)
  }

  predicate SorterShown(dp: DataProvider) {
    dp.sort.Some? && dp.sort.value.attributes != {} && dp.count > 0
  }

  /** `renderSorter()`: its output and the sorter configuration it leaves behind. */
  function SorterStep(dp: DataProvider, sorter: Config, widget: (Value, Config) -> string): (r: (string, Config))
    ensures !SorterShown(dp) ==> r == ("", sorter)
    ensures SorterShown(dp) ==>
      && Injected(r.1, sorter, "sort", SortValue(dp.sort.value))
      && r.0 == widget(ClassOf(sorter, LinkSorter), r.1)
  {
    if dp.sort.None? || dp.sort.value.attributes == {} || dp.count <= 0 then ("", sorter)
    else
      var (cls, rest) := Remove(sorter, "class", LinkSorter);
      var config := rest["sort" := SortValue(dp.sort.value)];
      (widget(cls, config), config)
  }

  /**
   * The pager's configuration settles after one call: a second call in the
   * same render leaves it as it is and, its `class` entry being gone, asks
   * for the default LinkPager whatever class was configured.
   */
  lemma RepeatedPager(dp: DataProvider, pager: Config, widget: (Value, Config) -> string)
    requires PagerShown(dp)
    ensures var (_, once) := PagerStep(dp, pager, widget);
      var (out, twice) := PagerStep(dp, once, widget);
      twice == once && out == widget(LinkPager, once)
  {
    var once := PagerStep(dp, pager, widget).1;
    var twice := PagerStep(dp, once, widget).1;
    assert twice.Keys == once.Keys;
  }

  /** The sorter's configuration settles the same way, falling back to LinkSorter. */
  lemma RepeatedSorter(dp: DataProvider, sorter: Config, widget: (Value, Config) -> string)
    requires SorterShown(dp)
    ensures var (_, once) := SorterStep(dp, sorter, widget);
      var (out, twice) := SorterStep(dp, once, widget);
      twice == once && out == widget(LinkSorter, once)
  {
    var once := SorterStep(dp, sorter, widget).1;
    var twice := SorterStep(dp, once, widget).1;
    assert twice.Keys == once.Keys;
  }

  // ---- sections ----

  /** The configurations that rendering sections may change. */
  datatype Widgets = Widgets(pager: Config, sorter: Config)

  const SectionNames: set<string> := {"{summary}", "{items}", "{pager}", "{sorter}"}

  /** `renderSection($name)`: the section's content, or `None` (PHP `false`) for an unknown name. */
  function Section(dp: DataProvider, summary: Option<string>, c: Collaborators, w: Widgets, name: string)
    : (r: (Option<string>, Widgets))
    ensures r.0.Some? <==> name in SectionNames
    ensures name == "{summary}" ==> r == (Some(Summary.Render(dp, summary, c.messages)), w)
    ensures name == "{items}" ==> r == (Some(c.items), w)
    ensures name == "{pager}" ==>
      r == (Some(PagerStep(dp, w.pager, c.widget).0), w.(pager := PagerStep(dp, w.pager, c.widget).1))
    ensures name == "{sorter}" ==>
      r == (Some(SorterStep(dp, w.sorter, c.widget).0), w.(sorter := SorterStep(dp, w.sorter, c.widget).1))
    ensures name !in SectionNames ==> r.1 == w
    ensures name != "{pager}" ==> r.1.pager == w.pager
    ensures name != "{sorter}" ==> r.1.sorter == w.sorter
  {
    if name == "{summary}" then (Some(Summary.Render(dp, summary, c.messages)), w)
    else if name == "{items}" then (Some(c.items), w)
    else if name == "{pager}" then
      var (out, pager) := PagerStep(dp, w.pager, c.widget);
      (Some(out), w.(pager := pager))
    else if name == "{sorter}" then
      var (out, sorter) := SorterStep(dp, w.sorter, c.widget);
      (Some(out), w.(sorter := sorter))
    else (None, w)
  }

  /** With nothing to show, the pager and sorter sections are empty and change nothing. */
  lemma WidgetsSkippedWhenEmpty(dp: DataProvider, summary: Option<string>, c: Collaborators, w: Widgets)
    requires dp.count <= 0
    ensures Section(dp, summary, c, w, "{pager}") == (Some(""), w)
    ensures Section(dp, summary, c, w, "{sorter}") == (Some(""), w)
  {
  }

  function Renderer(dp: DataProvider, summary: Option<string>, c: Collaborators): Layout.Renderer<Widgets> {
    (w: Widgets, name: string) => Section(dp, summary, c, w, name)
  }

  // ---- run ----

  /** The layout is rendered unless there is nothing to show and `empty` is not `false`. */
  predicate ShowsLayout(dp: DataProvider, empty: Empty) {
    dp.count > 0 || empty == Off
  }

  /** The empty-state message: the translated default for `null`, PHP's string form otherwise. */
  function EmptyText(empty: Empty, noResults: string): (r: string)
    ensures empty == Unset ==> r == noResults
    ensures empty == On ==> r == "1"
    ensures empty == Off ==> r == ""
    ensures empty.Message? ==> r == empty.text
  {
    match empty
    case Unset => noResults
    case Message(t) => t
    case On => "1"
    case Off => ""
  }

  /** The empty-state block: the message, recoverable from between the block's tags. */
  function EmptyBlock(empty: Empty, noResults: string): (r: string)
    ensures |r| == |EmptyText(empty, noResults)| + 25
    ensures r[..19] == "<div class=\"empty\">" && r[|r| - 6..] == "</div>"
    ensures r[19..|r| - 6] == EmptyText(empty, noResults)
  {
    "<div class=\"empty\">" + EmptyText(empty, noResults) + "</div>"
  }

  /** The content `run()` wraps in its container, and the configurations afterwards. */
  function RunContent(dp: DataProvider, empty: Empty, layout: string, summary: Option<string>, c: Collaborators, w: Widgets)
    : (r: (string, Widgets))
    ensures ShowsLayout(dp, empty) ==> r == Layout.Substitute(layout, w, Renderer(dp, summary, c))
    ensures !ShowsLayout(dp, empty) ==> r == (EmptyBlock(empty, c.noResults), w)
  {
    if ShowsLayout(dp, empty) then Layout.Substitute(layout, w, Renderer(dp, summary, c))
    else (EmptyBlock(empty, c.noResults), w)
  }

  /** With no rows and `empty` unset, the content is the default "no results" block. */
  lemma NoResultsByDefault(dp: DataProvider, layout: string, summary: Option<string>, c: Collaborators, w: Widgets)
    requires dp.count <= 0
    ensures RunContent(dp, Unset, layout, summary, c, w).0 == "<div class=\"empty\">" + c.noResults + "</div>"
  {
  }

  /**
   * The default layout, when shown (rows to show, or `empty` set to `false`):
   * summary, items and pager, one per line; only the pager configuration changes.
   */
  lemma DefaultLayoutContent(dp: DataProvider, empty: Empty, summary: Option<string>, c: Collaborators, w: Widgets)
    requires ShowsLayout(dp, empty)
    ensures var (pagerOut, pagerConfig) := PagerStep(dp, w.pager, c.widget);
      RunContent(dp, empty, Layout.DefaultLayout, summary, c, w)
        == (Summary.Render(dp, summary, c.messages) + "\n" + c.items + "\n" + pagerOut, w.(pager := pagerConfig))
  {
    var R := Renderer(dp, summary, c);
    var (pagerOut, pagerConfig) := PagerStep(dp, w.pager, c.widget);
    Layout.DefaultPiecesWellFormed();
    Layout.SubstitutePieces(Layout.DefaultPieces(), w, R);
    assert R(w, "{pager}") == (Some(pagerOut), w.(pager := pagerConfig));
    Layout.DefaultPiecesRendered(w, R, Summary.Render(dp, summary, c.messages), c.items, pagerOut, w.(pager := pagerConfig));
  }

  /** A second `run()` finds the `tag` option already removed and falls back to `div`. */
  lemma SecondRunUsesDefaultTag(options: Config)
    ensures Remove(Remove(options, "tag", DefaultTag).1, "tag", DefaultTag).0 == DefaultTag
  {
  }

  // ---- the widget object ----

  class BaseListView {
    var options: Config
    var dataProvider: Option<DataProvider>
    var pager: Config
    var sorter: Config
    var summary: Option<string>
    var empty: Empty
    var layout: string

    /** The property defaults; a configuration then assigns the public fields. */
    constructor (dataProvider: Option<DataProvider>)
      ensures this.dataProvider == dataProvider
      ensures options == map[] && pager == map[] && sorter == map[]
      ensures summary == None && empty == Unset && layout == Layout.DefaultLayout
    {
      this.dataProvider := dataProvider;
      options, pager, sorter := map[], map[], map[];
      summary, empty, layout := None, Unset, Layout.DefaultLayout;
    }

    /** `init()`: a view without a data provider is a configuration error. */
    method Init() returns (r: Outcome<ConfigError>)
      ensures r.Fail? <==> dataProvider.None?
      ensures r.Fail? ==> r.error == MissingProvider
    {
      if dataProvider.None? {
        return Fail(MissingProvider);
      }
      return Pass;
    }

    /** `renderSummary()`: no summary token survives, and a token-free configured summary is shown as it is. */
    method RenderSummary(c: Collaborators) returns (s: string)
      requires dataProvider.Some?
      ensures s == Summary.Render(dataProvider.value, summary, c.messages)
      ensures Strings.NoKeyIn(s, Summary.Tokens(Summary.DisplayOf(dataProvider.value)))
      ensures summary.Some? && Strings.NoKeyIn(summary.value, Summary.Tokens(Summary.DisplayOf(dataProvider.value)))
        ==> s == summary.value
    {
      s := Summary.Render(dataProvider.value, summary, c.messages);
    }

    method RenderPager(c: Collaborators) returns (s: string)
      requires dataProvider.Some?
      modifies this`pager
      ensures (s, pager) == PagerStep(dataProvider.value, old(pager), c.widget)
    {
      var dp := dataProvider.value;
      if dp.pagination.None? || dp.count <= 0 {
        return "";
      }
      var removed := Remove(pager, "class", LinkPager);
      pager := removed.1;
      pager := pager["pagination" := PaginationValue(dp.pagination.value)];
      s := c.widget(removed.0, pager);
    }

    method RenderSorter(c: Collaborators) returns (s: string)
      requires dataProvider.Some?
      modifies this`sorter
      ensures (s, sorter) == SorterStep(dataProvider.value, old(sorter), c.widget)
    {
      var dp := dataProvider.value;
      if dp.sort.None? || dp.sort.value.attributes == {} || dp.count <= 0 {
        return "";
      }
      var removed := Remove(sorter, "class", LinkSorter);
      sorter := removed.1;
      sorter := sorter["sort" := SortValue(dp.sort.value)];
      s := c.widget(removed.0, sorter);
    }

    method RenderSection(name: string, c: Collaborators) returns (r: Option<string>)
      requires dataProvider.Some?
      modifies this`pager, this`sorter
      ensures (r, Widgets(pager, sorter))
        == Section(dataProvider.value, summary, c, Widgets(old(pager), old(sorter)), name)
    {
      if name == "{summary}" {
        var s := RenderSummary(c);
        r := Some(s);
      } else if name == "{items}" {
        r := Some(c.items);
      } else if name == "{pager}" {
        var s := RenderPager(c);
        r := Some(s);
      } else if name == "{sorter}" {
        var s := RenderSorter(c);
        r := Some(s);
      } else {
        r := None;
      }
    }

    /** The section a token names, or the token itself when it names none. */
    method RenderToken(token: string, c: Collaborators) returns (piece: string)
      requires dataProvider.Some?
      modifies this`pager, this`sorter
      ensures var (out, after) := Renderer(dataProvider.value, summary, c)(Widgets(old(pager), old(sorter)), token);
        piece == (if out.Some? then out.value else token) && Widgets(pager, sorter) == after
    {
      var section := RenderSection(token, c);
      piece := if section.Some? then section.value else token;
    }

    /**
     * One step of the `preg_replace_callback` pass at position `i`: a token is
     * rendered (or kept when it names no section), any other character copied.
     */
    method RenderStep(text: string, i: nat, c: Collaborators) returns (piece: string, next: nat)
      requires dataProvider.Some? && i < |text|
      modifies this`pager, this`sorter
      ensures i < next <= |text|
      ensures var R := Renderer(dataProvider.value, summary, c);
        var tail := Layout.Substitute(text[next..], Widgets(pager, sorter), R);
        Layout.Substitute(text[i..], Widgets(old(pager), old(sorter)), R) == (piece + tail.0, tail.1)
    {
      ghost var R := Renderer(dataProvider.value, summary, c);
      ghost var before := Widgets(pager, sorter);
      match Layout.TokenLength(text[i..])
      case Some(n) =>
        Layout.SubstituteTokenStep(text, i, n, before, R);
        ghost var (out, after) := R(before, text[i..i + n]);
        piece := RenderToken(text[i..i + n], c);
        assert piece == (if out.Some? then out.value else text[i..i + n]) && Widgets(pager, sorter) == after;
        next := i + n;
      case None =>
        Layout.SubstituteCharStep(text, i, before, R);
        piece := [text[i]];
        next := i + 1;
    }

    /** The `preg_replace_callback` pass of `run()`: every layout token is rendered in turn. */
    method RenderLayout(c: Collaborators) returns (content: string)
      requires dataProvider.Some?
      modifies this`pager, this`sorter
      ensures (content, Widgets(pager, sorter))
        == Layout.Substitute(layout, Widgets(old(pager), old(sorter)), Renderer(dataProvider.value, summary, c))
    {
      ghost var R := Renderer(dataProvider.value, summary, c);
      var text := layout;
      ghost var whole := Layout.Substitute(text, Widgets(pager, sorter), R);
      content := "";
      var i := 0;
      assert text[i..] == text && "" + whole.0 == whole.0;
      while i < |text|
        invariant 0 <= i <= |text| && text == layout && R == Renderer(dataProvider.value, summary, c)
        invariant whole.0 == content + Layout.Substitute(text[i..], Widgets(pager, sorter), R).0
        invariant whole.1 == Layout.Substitute(text[i..], Widgets(pager, sorter), R).1
        decreases |text| - i
      {
        var piece, next := RenderStep(text, i, c);
        ghost var after := Layout.Substitute(text[next..], Widgets(pager, sorter), R);
        assert content + (piece + after.0) == (content + piece) + after.0;
        content := content + piece;
        i := next;
      }
      assert text[i..] == [] && content + [] == content;
    }

    /** `run()`: the container's tag and content; the tag option is consumed. */
    method Run(c: Collaborators) returns (tag: Value, content: string)
      requires dataProvider.Some?
      modifies this`options, this`pager, this`sorter
      ensures (content, Widgets(pager, sorter))
        == RunContent(dataProvider.value, empty, layout, summary, c, Widgets(old(pager), old(sorter)))
      ensures (tag, options) == Remove(old(options), "tag", DefaultTag)
    {
      var dp := dataProvider.value;
      if dp.count > 0 || empty == Off {
        content := RenderLayout(c);
      } else {
        content := EmptyBlock(empty, c.noResults);
      }
      var removed := Remove(options, "tag", DefaultTag);
      tag, options := removed.0, removed.1;
    }
  }
}
