/**
  The option layout of packages/react-native-jigsaw/src/components/RadioButtonGroup.tsx.

  `RadioButtonGroup` maps the group's props to the container's style and one
  record per option: whether it is selected, its colours, divider widths,
  margins, corner radius, height, the icon and label it shows and the label
  that pressing it hands to `onSelect`.

  JavaScript values are modelled as follows: an omitted (`undefined`) prop is
  `None`, so the defaults of `direction`, `options` and `onSelect` apply to it; a
  number is a `real` and is truthy when present and non-zero; a string or a
  colour is a `string` and is truthy when present and non-empty.
*/
module RadioGroup {
  import opened Optional

  type Color = string

  datatype Direction = Horizontal | Vertical

  datatype RadioButtonOption = RadioButtonOption(labelText: string, icon: Option<string>)

  /**
    The `style` prop: a plain style object with an optional height, or any
    other style value (an array or a registered style) whose `.height` reads
    as `undefined`.
  */
  datatype Style = Plain(height: Option<real>) | Composite

  datatype Props = Props(
    direction: Option<Direction>,
    options: Option<seq<RadioButtonOption>>,
    activeColor: Option<Color>,
    inactiveColor: Option<Color>,
    iconSize: real,
    contentColor: Option<Color>,
    unselectedContentColor: Option<Color>,
    borderRadius: Option<real>,
    optionSpacing: Option<real>,
    borderColor: Option<Color>,
    style: Option<Style>,
    value: string,
    hasOnSelect: bool)

  /** What the platform and the theme supply: `StyleSheet.hairlineWidth` and `colors.divider`. */
  datatype Env = Env(hairlineWidth: real, dividerColor: Color)

  datatype FlexDirection = Row | Column

  /** The container's own style, followed by the caller's `style`. */
  datatype ContainerStyle = ContainerStyle(
    flexDirection: FlexDirection,
    borderRadius: Option<real>,
    alignItemsCenter: bool,
    style: Option<Style>)

  datatype IconView = IconView(name: string, size: real, color: Option<Color>)

  datatype LabelView = LabelView(text: string, color: Option<Color>)

  /** One option as drawn: a touchable keyed by its index wrapping a styled row. */
  datatype OptionView = OptionView(
    key: nat,
    pressLabel: string,
    selected: bool,
    backgroundColor: Option<Color>,
    height: real,
    borderLeftWidth: real,
    borderRightWidth: real,
    borderColor: Color,
    borderRadius: Option<real>,
    marginHorizontal: real,
    marginVertical: real,
    icon: Option<IconView>,
    text: Option<LabelView>)

  datatype Group = Group(container: ContainerStyle, options: seq<OptionView>)

  const DefaultHeight: real := 50.0

  predicate TruthyNumber(x: Option<real>)
  {
    x.Some? && x.value != 0.0
  }

  predicate TruthyString(x: Option<string>)
  {
    x.Some? && x.value != ""
  }

  /** `direction`, defaulting to horizontal. */
  function DirectionOf(p: Props): Direction
  {
    if p.direction.None? then Horizontal else p.direction.value
  }

  /** `options`, defaulting to the empty list. */
  function OptionsOf(p: Props): seq<RadioButtonOption>
  {
    if p.options.None? then [] else p.options.value
  }

  function MarginHorizontal(p: Props): real
  {
    if DirectionOf(p) == Horizontal && TruthyNumber(p.optionSpacing) then p.optionSpacing.value / 2.0 else 0.0
  }

  function MarginVertical(p: Props): real
  {
    if DirectionOf(p) == Vertical && TruthyNumber(p.optionSpacing) then p.optionSpacing.value / 2.0 else 0.0
  }

  /**
    The container is a column exactly for vertical groups and centres its
    items exactly for the others; it takes the group's corner radius only
    when there is no spacing between options.
  */
  function Container(p: Props): (c: ContainerStyle)
    ensures c.flexDirection == Column <==> DirectionOf(p) == Vertical
    ensures c.alignItemsCenter <==> DirectionOf(p) != Vertical
    ensures c.borderRadius == if TruthyNumber(p.optionSpacing) then Some(0.0) else p.borderRadius
    ensures c.style == p.style
  {
    var direction := DirectionOf(p);
    ContainerStyle(
      if direction == Vertical then Column else Row,
      if TruthyNumber(p.optionSpacing) then Some(0.0) else p.borderRadius,
      direction != Vertical,
      p.style)
  }

  /** Option height: the style's height when it is given and truthy, otherwise 50. */
  function OptionHeight(style: Option<Style>): (h: real)
    ensures (style.Some? && style.value.Plain? && TruthyNumber(style.value.height)) ==> h == style.value.height.value
    ensures !(style.Some? && style.value.Plain? && TruthyNumber(style.value.height)) ==> h == DefaultHeight
  {
    if style.None? then DefaultHeight
    else match style.value
      case Composite => DefaultHeight
      case Plain(height) => if TruthyNumber(height) then height.value else DefaultHeight
  }

  /** The record drawn for option `index` of `count`. */
  function OptionAt(p: Props, env: Env, option: RadioButtonOption, index: nat, count: nat): OptionView
  {
    var selected := option.labelText == p.value;
    var textColor := if selected then p.contentColor else p.unselectedContentColor;
    var divided := TruthyString(p.borderColor);
    OptionView(
      index,
      option.labelText,
      selected,
      if selected then p.activeColor else p.inactiveColor,
      OptionHeight(p.style),
      if divided && index != 0 then env.hairlineWidth else 0.0,
      if divided && index != count - 1 then env.hairlineWidth else 0.0,
      if divided then p.borderColor.value else env.dividerColor,
      if TruthyNumber(p.optionSpacing) then p.borderRadius else Some(0.0),
      MarginHorizontal(p),
      MarginVertical(p),
      if TruthyString(option.icon) then Some(IconView(option.icon.value, p.iconSize, textColor)) else None,
      if option.labelText != "" then Some(LabelView(option.labelText, textColor)) else None)
  }

  /**
    The whole group: one record per option in input order. Selection is
    label equality with `value` (several options may be selected at once);
    dividers sit only between options, so the first option has no left
    divider and the last no right one; at most one of the two margins is
    non-zero; the corner radius goes either to the container or to the
    options.
  */
  function RadioButtonGroup(p: Props, env: Env): (g: Group)
    ensures g.container == Container(p)
    ensures |g.options| == |OptionsOf(p)|
    ensures forall i :: 0 <= i < |g.options| ==>
      var o, v := OptionsOf(p)[i], g.options[i];
      && v.key == i && v.pressLabel == o.labelText
      && (v.selected <==> o.labelText == p.value)
      && v.backgroundColor == (if v.selected then p.activeColor else p.inactiveColor)
      && v.height == OptionHeight(p.style)
      && v.borderColor == (if TruthyString(p.borderColor) then p.borderColor.value else env.dividerColor)
      && v.borderRadius == (if TruthyNumber(p.optionSpacing) then p.borderRadius else Some(0.0))
      && v.marginHorizontal ==
           (if DirectionOf(p) == Horizontal && TruthyNumber(p.optionSpacing) then p.optionSpacing.value / 2.0 else 0.0)
      && v.marginVertical ==
           (if DirectionOf(p) == Vertical && TruthyNumber(p.optionSpacing) then p.optionSpacing.value / 2.0 else 0.0)
      && (v.icon.Some? <==> TruthyString(o.icon))
      && (v.icon.Some? ==> v.icon.value.name == o.icon.value && v.icon.value.size == p.iconSize)
      && (v.text.Some? <==> o.labelText != "")
      && (v.text.Some? ==> v.text.value.text == o.labelText)
      && (v.icon.Some? ==> v.icon.value.color == (if v.selected then p.contentColor else p.unselectedContentColor))
      && (v.text.Some? ==> v.text.value.color == (if v.selected then p.contentColor else p.unselectedContentColor))
    ensures |g.options| > 0 ==> g.options[0].borderLeftWidth == 0.0
    ensures |g.options| > 0 ==> g.options[|g.options| - 1].borderRightWidth == 0.0
    ensures forall i :: 0 <= i < |g.options| ==>
      (g.options[i].borderLeftWidth != 0.0 ==> TruthyString(p.borderColor) && i != 0) &&
      (g.options[i].borderRightWidth != 0.0 ==> TruthyString(p.borderColor) && i != |g.options| - 1)
    ensures forall i :: 0 <= i < |g.options| ==>
      g.options[i].marginHorizontal == 0.0 || g.options[i].marginVertical == 0.0
    ensures forall i :: 0 <= i < |g.options| ==>
      g.options[i].borderRadius == Some(0.0) || g.container.borderRadius == Some(0.0)
  {
    var options := OptionsOf(p);
    Group(Container(p), seq(|options|, i requires 0 <= i < |options| => OptionAt(p, env, options[i], i, |options|)))
  }

  /** Pressing option `index` calls `onSelect` with that option's label; the default `onSelect` does nothing. */
  function Press(p: Props, env: Env, index: nat): (selected: Option<string>)
    requires index < |OptionsOf(p)|
    ensures selected.Some? <==> p.hasOnSelect
    ensures selected.Some? ==> selected.value == OptionsOf(p)[index].labelText
  {
    if p.hasOnSelect then Some(RadioButtonGroup(p, env).options[index].pressLabel) else None
  }

  /**
    With borders on, adjacent options agree on the
    divider between them: every inner boundary is drawn from both sides.
  */
  lemma DividersBetweenNeighbours(p: Props, env: Env, i: nat)
    requires TruthyString(p.borderColor)
    requires i + 1 < |OptionsOf(p)|
    ensures var g := RadioButtonGroup(p, env);
      g.options[i].borderRightWidth == g.options[i + 1].borderLeftWidth == env.hairlineWidth
  {
  }

  /**
    An option has a horizontal margin exactly in a horizontal group with a
    non-zero spacing, and a vertical one exactly in a vertical group with a
    non-zero spacing; the margin is then half the spacing.
  */
  lemma MarginsFollowDirection(p: Props, env: Env, i: nat)
    requires i < |OptionsOf(p)|
    ensures var v := RadioButtonGroup(p, env).options[i];
      && (v.marginHorizontal != 0.0 <==> DirectionOf(p) == Horizontal && TruthyNumber(p.optionSpacing))
      && (v.marginVertical != 0.0 <==> DirectionOf(p) == Vertical && TruthyNumber(p.optionSpacing))
      && (v.marginHorizontal != 0.0 ==> v.marginHorizontal == p.optionSpacing.value / 2.0)
      && (v.marginVertical != 0.0 ==> v.marginVertical == p.optionSpacing.value / 2.0)
  {
  }
}
