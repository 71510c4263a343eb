/** The column-alignment table plugin: per-column alignment state, the toggle
    cycle through a configured order, reset to the value captured when the
    plugin was created, and the props and style attributes derived for header
    and body cells. */
module AlignedColumns {
  import opened Sequences

  /** A value or JavaScript's `undefined`. */
  datatype Option<T> = None | Some(value: T) {
    /** The nullish-coalescing operator `this ?? d`. */
    function GetOr(d: T): T
    {
      match this
      case Some(v) => v
      case None => d
    }
  }

  datatype ColumnAlignment = Auto | Left | Center | Right

  /** Values of the CSS `justify-content` property used for flex cells. */
  datatype AlignFlex = Normal | FlexStart | FlexCenter | FlexEnd

  /** The table regions a column's alignment may apply to: `thead` and `tbody`. */
  datatype AlignmentSpan = THead | TBody

  /** How an alignment reaches the cell: only as a prop, as `text-align`, or as `justify-content`. */
  datatype AlignmentType = Prop | Text | Flex

  const DefaultToggleOrder: seq<ColumnAlignment> := [Auto, Left, Center, Right]

  /** The plugin's configuration as the caller writes it; every field may be left out. */
  datatype AddAlignedColumnsConfig = AddAlignedColumnsConfig(
    defaultAlignment: Option<ColumnAlignment>,
    toggleOrder: Option<seq<ColumnAlignment>>,
    alignmentType: Option<AlignmentType>,
    defaultToggle: Option<bool>,
    defaultDisable: Option<bool>)

  /** The configuration once the plugin's defaults are filled in. */
  datatype Config = Config(
    defaultAlignment: ColumnAlignment,
    toggleOrder: seq<ColumnAlignment>,
    alignmentType: AlignmentType,
    defaultToggle: bool,
    defaultDisable: bool)

  /** `alignOn` is a single region or a list of regions. */
  datatype AlignOn = Span(span: AlignmentSpan) | Spans(spans: seq<AlignmentSpan>)

  /** A column's own options; every field may be left out. */
  datatype ColumnOptions = ColumnOptions(
    initialAlignment: Option<ColumnAlignment>,
    alignOn: Option<AlignOn>,
    noToggle: Option<bool>,
    disable: Option<bool>)

  /** What a column without an entry in the column options is given (`?? {}`). */
  const NoOptions := ColumnOptions(None, None, None, None)

  /** The shared record from column id to its stored alignment, `undefined` included. */
  type Alignments = map<string, Option<ColumnAlignment>>

  /** Reading a record entry: a missing key reads as `undefined`. */
  function Lookup(m: Alignments, id: string): Option<ColumnAlignment>
  {
    if id in m then m[id] else None
  }

  /** A column's options, or none at all for a column that was not configured (`?? {}`). */
  function OptionsOf(columnOptions: map<string, ColumnOptions>, id: string): (o: ColumnOptions)
    ensures id in columnOptions ==> o == columnOptions[id]
    ensures id !in columnOptions ==> o.initialAlignment.None? && o.alignOn.None? && o.noToggle.None? && o.disable.None?
  {
    if id in columnOptions then columnOptions[id] else NoOptions
  }

  /** Destructuring the configuration with its defaults. */
  function Resolve(c: AddAlignedColumnsConfig): (r: Config)
    ensures c.defaultAlignment.Some? ==> r.defaultAlignment == c.defaultAlignment.value
    ensures c.defaultAlignment.None? ==> r.defaultAlignment == Auto
    ensures c.toggleOrder.Some? ==> r.toggleOrder == c.toggleOrder.value
    ensures c.toggleOrder.None? ==> r.toggleOrder == DefaultToggleOrder
    ensures c.alignmentType.Some? ==> r.alignmentType == c.alignmentType.value
    ensures c.alignmentType.None? ==> r.alignmentType == Prop
    ensures c.defaultToggle.Some? ==> r.defaultToggle == c.defaultToggle.value
    ensures c.defaultToggle.None? ==> r.defaultToggle
    ensures c.defaultDisable.Some? ==> r.defaultDisable == c.defaultDisable.value
    ensures c.defaultDisable.None? ==> !r.defaultDisable
  {
    Config(
      c.defaultAlignment.GetOr(Auto),
      c.toggleOrder.GetOr(DefaultToggleOrder),
      c.alignmentType.GetOr(Prop),
      c.defaultToggle.GetOr(true),
      c.defaultDisable.GetOr(false))
  }

  /** A column's own `disable` overrides the plugin-wide `defaultDisable`. */
  function ShouldDisable(cfg: Config, colDisable: Option<bool>): (r: bool)
    ensures colDisable.Some? ==> r == colDisable.value
    ensures colDisable.None? ==> r == cfg.defaultDisable
  {
    if colDisable.Some? then colDisable.value else cfg.defaultDisable
  }

  /** A column's own `noToggle` (negated) overrides the plugin-wide `defaultToggle`. */
  function ShouldToggle(cfg: Config, colNoToggle: Option<bool>): (r: bool)
    ensures colNoToggle.Some? ==> r == !colNoToggle.value
    ensures colNoToggle.None? ==> r == cfg.defaultToggle
  {
    if colNoToggle.Some? then !colNoToggle.value else cfg.defaultToggle
  }

  /** The record the plugin starts from: one entry per configured column. */
  function InitialAlignments(cfg: Config, columnOptions: map<string, ColumnOptions>): (m: Alignments)
    ensures m.Keys == columnOptions.Keys
    ensures forall id | id in m && ShouldDisable(cfg, columnOptions[id].disable) :: m[id] == None
    ensures forall id | id in m && !ShouldDisable(cfg, columnOptions[id].disable) ::
      m[id] == Some(if columnOptions[id].initialAlignment.Some? then columnOptions[id].initialAlignment.value
                    else cfg.defaultAlignment)
  {
    map id | id in columnOptions ::
      if ShouldDisable(cfg, columnOptions[id].disable) then None
      else Some(columnOptions[id].initialAlignment.GetOr(cfg.defaultAlignment))
  }

  /** The alignment a cell shows: nothing for a disabled column, else the stored
      entry, else the current default. */
  function EffectiveAlignment(cfg: Config, opts: ColumnOptions, stored: Option<ColumnAlignment>,
                              alignDefault: ColumnAlignment): (r: Option<ColumnAlignment>)
    ensures ShouldDisable(cfg, opts.disable) ==> r == None
    ensures !ShouldDisable(cfg, opts.disable) ==> r.Some?
    ensures !ShouldDisable(cfg, opts.disable) && stored.Some? ==> r == stored
    ensures !ShouldDisable(cfg, opts.disable) && stored.None? ==> r == Some(alignDefault)
  {
    if ShouldDisable(cfg, opts.disable) then None else Some(stored.GetOr(alignDefault))
  }

  /** The alignment a toggle moves to from `cur`. `init` is the column's initial
      alignment, or the current default when it has none. */
  function FindNext(order: seq<ColumnAlignment>, cur: Option<ColumnAlignment>,
                    init: ColumnAlignment): (r: ColumnAlignment)
    // before the last entry: the following entry
    ensures forall k | 0 <= k < |order| - 1 && cur == Some(order[k]) && order[k] !in order[..k] ::
      r == order[k + 1]
    // `undefined` or a value outside the order: the first entry
    ensures (cur.None? || cur.value !in order) && |order| > 0 ==> r == order[0]
    // at the last entry: the first entry when `init` is in the order, else `init` itself
    ensures |order| > 0 && cur == Some(order[|order| - 1]) && order[|order| - 1] !in order[..|order| - 1] ==>
      r == if init in order then order[0] else init
    ensures |order| == 0 ==> r == init
    ensures r in order || r == init
  {
    var i := if cur.Some? then IndexOf(order, cur.value) else -1;
    if i < |order| - 1 then order[i + 1]
    else if init in order then order[0]
    else init
  }

  /** The result of `k` toggles from `cur` with a fixed order and initial alignment. */
  function Toggles(order: seq<ColumnAlignment>, init: ColumnAlignment,
                   cur: Option<ColumnAlignment>, k: nat): Option<ColumnAlignment>
    decreases k
  {
    if k == 0 then cur else Toggles(order, init, Some(FindNext(order, cur, init)), k - 1)
  }

  lemma {:induction false} TogglesSplit(order: seq<ColumnAlignment>, init: ColumnAlignment,
                                        cur: Option<ColumnAlignment>, a: nat, b: nat)
    ensures Toggles(order, init, cur, a + b) == Toggles(order, init, Toggles(order, init, cur, a), b)
    decreases a
  {
    if a > 0 {
      TogglesSplit(order, init, Some(FindNext(order, cur, init)), a - 1, b);
    }
  }

  /** Away from the last entry, each toggle moves one step along an order without duplicates. */
  lemma {:induction false} TogglesWalk(order: seq<ColumnAlignment>, init: ColumnAlignment, i: nat, k: nat)
    requires NoDuplicates(order) && i + k < |order|
    ensures Toggles(order, init, Some(order[i]), k) == Some(order[i + k])
    decreases k
  {
    if k > 0 {
      FirstOccurrence(order, i);
      assert FindNext(order, Some(order[i]), init) == order[i + 1];
      TogglesWalk(order, init, i + 1, k - 1);
    }
  }

  /** With the initial alignment in an order without duplicates, `|order|`
      toggles bring any member of the order back to itself. */
  lemma {:induction false} ToggleCycle(order: seq<ColumnAlignment>, init: ColumnAlignment, i: nat)
    requires NoDuplicates(order) && init in order && i < |order|
    ensures Toggles(order, init, Some(order[i]), |order|) == Some(order[i])
  {
    var n := |order|;
    TogglesSplit(order, init, Some(order[i]), n - 1 - i, 1 + i);
    TogglesWalk(order, init, i, n - 1 - i);
    TogglesSplit(order, init, Some(order[n - 1]), 1, i);
    FirstOccurrence(order, n - 1);
    assert Toggles(order, init, Some(order[n - 1]), 1) == Some(order[0]);
    TogglesWalk(order, init, 0, i);
  }

  /** With the initial alignment outside a non-empty order without duplicates,
      the cycle has `|order| + 1` states: the order followed by the initial alignment. */
  lemma {:induction false} ToggleSinkCycle(order: seq<ColumnAlignment>, init: ColumnAlignment)
    requires NoDuplicates(order) && init !in order && |order| > 0
    ensures Toggles(order, init, Some(init), 1) == Some(order[0])
    ensures Toggles(order, init, Some(init), |order|) == Some(order[|order| - 1])
    ensures Toggles(order, init, Some(init), |order| + 1) == Some(init)
  {
    var n := |order|;
    assert Toggles(order, init, Some(init), 1) == Some(order[0]);
    TogglesSplit(order, init, Some(init), 1, n - 1);
    TogglesWalk(order, init, 0, n - 1);
    TogglesSplit(order, init, Some(init), n, 1);
    FirstOccurrence(order, n - 1);
    assert Toggles(order, init, Some(order[n - 1]), 1) == Some(init);
  }

  /** Right after the plugin is created, a configured column shows its initial
      alignment (or the default) unless it is disabled, and an unconfigured
      column shows the default unless columns are disabled by default. */
  lemma InitialEffectiveAlignment(cfg: Config, columnOptions: map<string, ColumnOptions>, id: string)
    ensures var opts := OptionsOf(columnOptions, id);
      EffectiveAlignment(cfg, opts, Lookup(InitialAlignments(cfg, columnOptions), id), cfg.defaultAlignment)
      == if ShouldDisable(cfg, opts.disable) then None
         else Some(opts.initialAlignment.GetOr(cfg.defaultAlignment))
    ensures id !in columnOptions ==>
      EffectiveAlignment(cfg, NoOptions, Lookup(InitialAlignments(cfg, columnOptions), id), cfg.defaultAlignment)
      == if cfg.defaultDisable then None else Some(cfg.defaultAlignment)
  {
  }

  /** The `justify-content` value standing for each alignment; each value stands
      for exactly one alignment. */
  function FlexAlign(a: ColumnAlignment): (f: AlignFlex)
    ensures f == Normal <==> a == Auto
    ensures f == FlexStart <==> a == Left
    ensures f == FlexCenter <==> a == Center
    ensures f == FlexEnd <==> a == Right
  {
    match a
    case Auto => Normal
    case Left => FlexStart
    case Center => FlexCenter
    case Right => FlexEnd
  }

  /** Distinct alignments give distinct `justify-content` values. */
  lemma FlexAlignInjective(a: ColumnAlignment, b: ColumnAlignment)
    requires FlexAlign(a) == FlexAlign(b)
    ensures a == b
  {
  }

  /** Whether a column's `alignOn` covers a region; an absent `alignOn` covers both. */
  function AppliesTo(alignOn: Option<AlignOn>, span: AlignmentSpan): (r: bool)
    ensures alignOn.None? ==> r
    ensures alignOn.Some? && alignOn.value.Span? ==> (r <==> alignOn.value.span == span)
    ensures alignOn.Some? && alignOn.value.Spans? ==> (r <==> span in alignOn.value.spans)
  {
    match alignOn
    case None => true
    case Some(Span(s)) => s == span
    case Some(Spans(ss)) => span in ss
  }

  /** The `style` a cell receives; an absent key stands for `undefined`. */
  datatype Style = Style(textAlign: Option<ColumnAlignment>, justifyContent: Option<AlignFlex>)

  /** The attribute set of a cell: `{}` or `{ style }`. */
  datatype CellAttrs = NoAttrs | Styled(style: Style)

  function CellAttributes(alignmentType: AlignmentType, alignOn: Option<AlignOn>, span: AlignmentSpan,
                          alignment: Option<ColumnAlignment>): (r: CellAttrs)
    ensures r == NoAttrs <==> alignment.None? || !AppliesTo(alignOn, span)
    ensures r.Styled? ==> r.style.textAlign == if alignmentType == Text then alignment else None
    ensures r.Styled? ==> (r.style.justifyContent.Some? <==> alignmentType == Flex)
    ensures r.Styled? && alignmentType == Flex ==> r.style.justifyContent == Some(FlexAlign(alignment.value))
  {
    if AppliesTo(alignOn, span) && alignment.Some? then
      Styled(Style(
        if alignmentType == Text then alignment else None,
        if alignmentType == Flex then Some(FlexAlign(alignment.value)) else None))
    else NoAttrs
  }

  /** The props of a header cell (its `toggle` and `clear` actions are the
      click methods of the plugin). */
  datatype HeaderProps = HeaderProps(alignment: Option<ColumnAlignment>, noToggle: bool, disabled: bool)

  /** The props of a body cell. */
  datatype BodyProps = BodyProps(alignment: Option<ColumnAlignment>, disabled: bool)

  /** One plugin instance for one table: the shared alignment record, the
      current default, and the snapshot of the record taken at creation. */
  class AlignedColumnsPlugin {
    const config: Config
    const columnOptions: map<string, ColumnOptions>
    /** A copy of the initial record, so that later updates do not reach it. */
    const ogAlignments: Alignments
    var alignments: Alignments
    var alignDefault: ColumnAlignment

    ghost predicate Valid()
    {
      ogAlignments == InitialAlignments(config, columnOptions)
    }

    constructor (c: AddAlignedColumnsConfig, columnOptions: map<string, ColumnOptions>)
      ensures Valid()
      ensures config == Resolve(c) && this.columnOptions == columnOptions
      ensures alignments == ogAlignments && alignDefault == config.defaultAlignment
    {
      config := Resolve(c);
      this.columnOptions := columnOptions;
      var initial := InitialAlignments(Resolve(c), columnOptions);
      alignments := initial;
      ogAlignments := initial;
      alignDefault := Resolve(c).defaultAlignment;
    }

    /** Where a toggle of column `id` wraps to: its initial alignment, or the current default. */
    function WrapTarget(id: string): (a: ColumnAlignment)
      reads this`alignDefault
      ensures id in columnOptions && columnOptions[id].initialAlignment.Some? ==>
        a == columnOptions[id].initialAlignment.value
      ensures id !in columnOptions || columnOptions[id].initialAlignment.None? ==> a == alignDefault
    {
      OptionsOf(columnOptions, id).initialAlignment.GetOr(alignDefault)
    }

    /** The click handler behind a header's toggle action. */
    method OnToggle(id: string)
      modifies this`alignments
      ensures alignments == old(alignments)[id := Some(FindNext(config.toggleOrder, Lookup(old(alignments), id), WrapTarget(id)))]
      ensures forall other | other != id :: Lookup(alignments, other) == Lookup(old(alignments), other)
    {
      var next := FindNext(config.toggleOrder, Lookup(alignments, id), WrapTarget(id));
      alignments := alignments[id := Some(next)];
    }

    /** The click handler behind a header's clear action. */
    method OnClear(id: string)
      requires Valid()
      modifies this`alignments
      ensures alignments == old(alignments)[id := Lookup(ogAlignments, id)]
      ensures Lookup(alignments, id) == Lookup(InitialAlignments(config, columnOptions), id)
      ensures forall other | other != id :: Lookup(alignments, other) == Lookup(old(alignments), other)
    {
      alignments := alignments[id := Lookup(ogAlignments, id)];
    }

    /** A click on a header carrying the toggle action: the action installs the
        handler only when the column may be toggled. */
    method ClickToggle(id: string)
      modifies this`alignments
      ensures ShouldToggle(config, OptionsOf(columnOptions, id).noToggle) ==>
        alignments == old(alignments)[id := Some(FindNext(config.toggleOrder, Lookup(old(alignments), id), WrapTarget(id)))]
      ensures !ShouldToggle(config, OptionsOf(columnOptions, id).noToggle) ==> alignments == old(alignments)
    {
      if ShouldToggle(config, OptionsOf(columnOptions, id).noToggle) {
        OnToggle(id);
      }
    }

    /** A click on a header carrying the clear action. */
    method ClickClear(id: string)
      requires Valid()
      modifies this`alignments
      ensures ShouldToggle(config, OptionsOf(columnOptions, id).noToggle) ==>
        alignments == old(alignments)[id := Lookup(ogAlignments, id)]
      ensures !ShouldToggle(config, OptionsOf(columnOptions, id).noToggle) ==> alignments == old(alignments)
    {
      if ShouldToggle(config, OptionsOf(columnOptions, id).noToggle) {
        OnClear(id);
      }
    }

    /** Writing the exposed `alignDefault` state. */
    method SetDefault(a: ColumnAlignment)
      modifies this`alignDefault
      ensures alignDefault == a
    {
      alignDefault := a;
    }

    /** Writing the exposed `alignments` state; the snapshot is a separate value. */
    method SetAlignments(m: Alignments)
      modifies this`alignments
      ensures alignments == m
    {
      alignments := m;
    }

    /** The alignment a cell of column `id` shows. */
    function Alignment(id: string): (a: Option<ColumnAlignment>)
      reads this
      ensures a.None? <==> ShouldDisable(config, OptionsOf(columnOptions, id).disable)
      ensures a.Some? ==> a.value == StoredOrDefault(id)
    {
      EffectiveAlignment(config, OptionsOf(columnOptions, id), Lookup(alignments, id), alignDefault)
    }

    function HeaderPropsOf(id: string): (p: HeaderProps)
      reads this
      ensures p.disabled == ShouldDisable(config, OptionsOf(columnOptions, id).disable)
      ensures p.disabled ==> p.alignment == None && p.noToggle
      ensures !p.disabled ==> p.alignment == Some(StoredOrDefault(id))
      ensures p.noToggle <==> p.disabled || !ShouldToggle(config, OptionsOf(columnOptions, id).noToggle)
    {
      var opts := OptionsOf(columnOptions, id);
      HeaderProps(Alignment(id),
                  !ShouldToggle(config, opts.noToggle) || ShouldDisable(config, opts.disable),
                  ShouldDisable(config, opts.disable))
    }

    function BodyPropsOf(id: string): (p: BodyProps)
      reads this
      ensures p.disabled == ShouldDisable(config, OptionsOf(columnOptions, id).disable)
      ensures p.disabled ==> p.alignment == None
      ensures !p.disabled ==> p.alignment == Some(StoredOrDefault(id))
    {
      BodyProps(Alignment(id), ShouldDisable(config, OptionsOf(columnOptions, id).disable))
    }

    /** The alignment a column shows when it is not disabled: its entry, else the default. */
    function StoredOrDefault(id: string): (a: ColumnAlignment)
      reads this
      ensures Lookup(alignments, id).Some? ==> a == Lookup(alignments, id).value
      ensures Lookup(alignments, id).None? ==> a == alignDefault
      ensures id !in alignments ==> a == alignDefault
    {
      Lookup(alignments, id).GetOr(alignDefault)
    }

    function HeaderAttrs(id: string): (a: CellAttrs)
      reads this
      ensures ShouldDisable(config, OptionsOf(columnOptions, id).disable) ==> a == NoAttrs
      ensures !AppliesTo(OptionsOf(columnOptions, id).alignOn, THead) ==> a == NoAttrs
      ensures !ShouldDisable(config, OptionsOf(columnOptions, id).disable)
              && AppliesTo(OptionsOf(columnOptions, id).alignOn, THead) ==>
              a == Styled(Style(
                if config.alignmentType == Text then Some(StoredOrDefault(id)) else None,
                if config.alignmentType == Flex then Some(FlexAlign(StoredOrDefault(id))) else None))
    {
      CellAttributes(config.alignmentType, OptionsOf(columnOptions, id).alignOn, THead, Alignment(id))
    }

    function BodyAttrs(id: string): (a: CellAttrs)
      reads this
      ensures ShouldDisable(config, OptionsOf(columnOptions, id).disable) ==> a == NoAttrs
      ensures !AppliesTo(OptionsOf(columnOptions, id).alignOn, TBody) ==> a == NoAttrs
      ensures !ShouldDisable(config, OptionsOf(columnOptions, id).disable)
              && AppliesTo(OptionsOf(columnOptions, id).alignOn, TBody) ==>
              a == Styled(Style(
                if config.alignmentType == Text then Some(StoredOrDefault(id)) else None,
                if config.alignmentType == Flex then Some(FlexAlign(StoredOrDefault(id))) else None))
    {
      CellAttributes(config.alignmentType, OptionsOf(columnOptions, id).alignOn, TBody, Alignment(id))
    }
  }
}
