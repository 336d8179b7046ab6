/** `ColorOverrides`: one named set of overrides for libadwaita's named colours,
    read and written slot by slot through a string key, rendered as a GTK
    stylesheet, and stored as `<name>.ron` in the colour-override directory. */
module Colors {
  import opened Wrappers
  import opened Storage

  /** The 31 optional colour fields of `ColorOverrides`, one constructor per field. */
  datatype Slot =
    | AccentBgColor | AccentFgColor | AccentColor
    | DestructiveBgColor | DestructiveFgColor | DestructiveColor
    | SuccessColor | SuccessBgColor | SuccessFgColor
    | WarningColor | WarningBgColor | WarningFgColor
    | ErrorColor | ErrorBgColor | ErrorFgColor
    | WindowBgColor | WindowFgColor
    | ViewBgColor | ViewFgColor
    | HeaderbarBgColor | HeaderbarFgColor | HeaderbarBorderColor | HeaderbarBackdropColor | HeaderbarShadeColor
    | CardBgColor | CardFgColor | CardShadeColor
    | PopoverBgColor | PopoverFgColor
    | ScrollbarOutlineColor | ShadeColor

  /** The field's name in the struct, which is also the libadwaita colour it overrides. */
  function SlotName(s: Slot): string
  {
    match s
    case AccentBgColor => "accent_bg_color"
    case AccentFgColor => "accent_fg_color"
    case AccentColor => "accent_color"
    case DestructiveBgColor => "destructive_bg_color"
    case DestructiveFgColor => "destructive_fg_color"
    case DestructiveColor => "destructive_color"
    case SuccessColor => "success_color"
    case SuccessBgColor => "success_bg_color"
    case SuccessFgColor => "success_fg_color"
    case WarningColor => "warning_color"
    case WarningBgColor => "warning_bg_color"
    case WarningFgColor => "warning_fg_color"
    case ErrorColor => "error_color"
    case ErrorBgColor => "error_bg_color"
    case ErrorFgColor => "error_fg_color"
    case WindowBgColor => "window_bg_color"
    case WindowFgColor => "window_fg_color"
    case ViewBgColor => "view_bg_color"
    case ViewFgColor => "view_fg_color"
    case HeaderbarBgColor => "headerbar_bg_color"
    case HeaderbarFgColor => "headerbar_fg_color"
    case HeaderbarBorderColor => "headerbar_border_color"
    case HeaderbarBackdropColor => "headerbar_backdrop_color"
    case HeaderbarShadeColor => "headerbar_shade_color"
    case CardBgColor => "card_bg_color"
    case CardFgColor => "card_fg_color"
    case CardShadeColor => "card_shade_color"
    case PopoverBgColor => "popover_bg_color"
    case PopoverFgColor => "popover_fg_color"
    case ScrollbarOutlineColor => "scrollbar_outline_color"
    case ShadeColor => "shade_color"
  }

  /** The order in which the struct declares its fields. */
  const DeclarationOrder: seq<Slot> := [
    AccentBgColor, AccentFgColor, AccentColor,
    DestructiveBgColor, DestructiveFgColor, DestructiveColor,
    SuccessColor, SuccessBgColor, SuccessFgColor,
    WarningColor, WarningBgColor, WarningFgColor,
    ErrorColor, ErrorBgColor, ErrorFgColor,
    WindowBgColor, WindowFgColor,
    ViewBgColor, ViewFgColor,
    HeaderbarBgColor, HeaderbarFgColor, HeaderbarBorderColor, HeaderbarBackdropColor, HeaderbarShadeColor,
    CardBgColor, CardFgColor, CardShadeColor,
    PopoverBgColor, PopoverFgColor,
    ScrollbarOutlineColor, ShadeColor
  ]

  /** The field `as_gtk_css` emits at each position: the declaration order,
      except that `shade_color` comes right after the view colours instead of last. */
  function CssSlotAt(i: nat): Slot
    requires i < 31
  {
    match i
    case 0 => AccentBgColor
    case 1 => AccentFgColor
    case 2 => AccentColor
    case 3 => DestructiveBgColor
    case 4 => DestructiveFgColor
    case 5 => DestructiveColor
    case 6 => SuccessColor
    case 7 => SuccessBgColor
    case 8 => SuccessFgColor
    case 9 => WarningColor
    case 10 => WarningBgColor
    case 11 => WarningFgColor
    case 12 => ErrorColor
    case 13 => ErrorBgColor
    case 14 => ErrorFgColor
    case 15 => WindowBgColor
    case 16 => WindowFgColor
    case 17 => ViewBgColor
    case 18 => ViewFgColor
    case 19 => ShadeColor
    case 20 => HeaderbarBgColor
    case 21 => HeaderbarFgColor
    case 22 => HeaderbarBorderColor
    case 23 => HeaderbarBackdropColor
    case 24 => HeaderbarShadeColor
    case 25 => CardBgColor
    case 26 => CardFgColor
    case 27 => CardShadeColor
    case 28 => PopoverBgColor
    case 29 => PopoverFgColor
    case _ => ScrollbarOutlineColor
  }

  /** The order in which `as_gtk_css` emits the fields. */
  function CssOrder(): seq<Slot>
  {
    seq(31, i requires 0 <= i < 31 => CssSlotAt(i))
  }

  /** The position of each field in `CssOrder`. */
  function CssIndex(s: Slot): nat
  {
    match s
    case AccentBgColor => 0
    case AccentFgColor => 1
    case AccentColor => 2
    case DestructiveBgColor => 3
    case DestructiveFgColor => 4
    case DestructiveColor => 5
    case SuccessColor => 6
    case SuccessBgColor => 7
    case SuccessFgColor => 8
    case WarningColor => 9
    case WarningBgColor => 10
    case WarningFgColor => 11
    case ErrorColor => 12
    case ErrorBgColor => 13
    case ErrorFgColor => 14
    case WindowBgColor => 15
    case WindowFgColor => 16
    case ViewBgColor => 17
    case ViewFgColor => 18
    case ShadeColor => 19
    case HeaderbarBgColor => 20
    case HeaderbarFgColor => 21
    case HeaderbarBorderColor => 22
    case HeaderbarBackdropColor => 23
    case HeaderbarShadeColor => 24
    case CardBgColor => 25
    case CardFgColor => 26
    case CardShadeColor => 27
    case PopoverBgColor => 28
    case PopoverFgColor => 29
    case ScrollbarOutlineColor => 30
  }

  /** `CssIndex` is the position function of `CssOrder`: each field sits at its index. */
  lemma CssOrderListsEverySlot()
    ensures forall s :: CssIndex(s) < |CssOrder()| && CssOrder()[CssIndex(s)] == s
  {
  }

  /** Each position of `CssOrder` holds the field whose index it is. */
  lemma CssIndexOfPosition(i: nat)
    requires i < |CssOrder()|
    ensures CssIndex(CssOrder()[i]) == i
  {
  }

  /** `q` lists its fields in `CssOrder`, each at most once. */
  predicate Ascending(q: seq<Slot>)
  {
    forall i, j :: 0 <= i < j < |q| ==> CssIndex(q[i]) < CssIndex(q[j])
  }

  /** `CssOrder` is ascending, so no field occurs in it twice. */
  lemma CssOrderIsAscending()
    ensures Ascending(CssOrder())
  {
    forall i, j | 0 <= i < j < |CssOrder()|
      ensures CssIndex(CssOrder()[i]) < CssIndex(CssOrder()[j])
    {
      CssIndexOfPosition(i);
      CssIndexOfPosition(j);
    }
  }

  /** `CssOrder` is the declaration order with `shade_color` moved from the end
      to the position right after the view colours. */
  lemma CssOrderMovesShadeColor()
    ensures |DeclarationOrder| == 31 && DeclarationOrder[30] == ShadeColor
    ensures CssOrder() == DeclarationOrder[..19] + [ShadeColor] + DeclarationOrder[19..30]
    ensures CssOrder() != DeclarationOrder
  {
    assert CssOrder()[19] != DeclarationOrder[19];
  }

  /** The six `*_bg_color`/`*_fg_color` fields of the success, warning and error
      colours. Their keys are routed to the plain `*_color` field. */
  predicate IsStatusVariant(s: Slot)
  {
    s in {SuccessBgColor, SuccessFgColor, WarningBgColor, WarningFgColor, ErrorBgColor, ErrorFgColor}
  }

  /** The field that the key named after `s` designates: `s` itself, except that
      each status variant is routed to its status colour. */
  function WriteTarget(s: Slot): (t: Slot)
    ensures !IsStatusVariant(t)
    ensures !IsStatusVariant(s) ==> t == s
    ensures s == SuccessBgColor || s == SuccessFgColor ==> t == SuccessColor
    ensures s == WarningBgColor || s == WarningFgColor ==> t == WarningColor
    ensures s == ErrorBgColor || s == ErrorFgColor ==> t == ErrorColor
  {
    match s
    case SuccessBgColor | SuccessFgColor => SuccessColor
    case WarningBgColor | WarningFgColor => WarningColor
    case ErrorBgColor | ErrorFgColor => ErrorColor
    case _ => s
  }

  /** The key table shared by `set_key` and `get_key`: the field a key writes and
      reads, or `None` for a key outside the 31 field names. */
  function KeyToSlot(key: string): (r: Option<Slot>)
    ensures r.Some? ==> !IsStatusVariant(r.value)
  {
    match key
    case "accent_bg_color" => Some(AccentBgColor)
    case "accent_fg_color" => Some(AccentFgColor)
    case "accent_color" => Some(AccentColor)
    case "destructive_bg_color" => Some(DestructiveBgColor)
    case "destructive_fg_color" => Some(DestructiveFgColor)
    case "destructive_color" => Some(DestructiveColor)
    case "success_color" => Some(SuccessColor)
    case "success_bg_color" => Some(SuccessColor)
    case "success_fg_color" => Some(SuccessColor)
    case "warning_color" => Some(WarningColor)
    case "warning_bg_color" => Some(WarningColor)
    case "warning_fg_color" => Some(WarningColor)
    case "error_color" => Some(ErrorColor)
    case "error_bg_color" => Some(ErrorColor)
    case "error_fg_color" => Some(ErrorColor)
    case "view_bg_color" => Some(ViewBgColor)
    case "view_fg_color" => Some(ViewFgColor)
    case "window_bg_color" => Some(WindowBgColor)
    case "window_fg_color" => Some(WindowFgColor)
    case "headerbar_bg_color" => Some(HeaderbarBgColor)
    case "headerbar_fg_color" => Some(HeaderbarFgColor)
    case "headerbar_border_color" => Some(HeaderbarBorderColor)
    case "headerbar_backdrop_color" => Some(HeaderbarBackdropColor)
    case "headerbar_shade_color" => Some(HeaderbarShadeColor)
    case "card_bg_color" => Some(CardBgColor)
    case "card_fg_color" => Some(CardFgColor)
    case "card_shade_color" => Some(CardShadeColor)
    case "popover_bg_color" => Some(PopoverBgColor)
    case "popover_fg_color" => Some(PopoverFgColor)
    case "scrollbar_outline_color" => Some(ScrollbarOutlineColor)
    case "shade_color" => Some(ShadeColor)
    case _ => None
  }

  /** The 31 keys the table recognises. */
  const RecognisedKeys: set<string> := {
    "accent_bg_color", "accent_fg_color", "accent_color",
    "destructive_bg_color", "destructive_fg_color", "destructive_color",
    "success_color", "success_bg_color", "success_fg_color",
    "warning_color", "warning_bg_color", "warning_fg_color",
    "error_color", "error_bg_color", "error_fg_color",
    "window_bg_color", "window_fg_color", "view_bg_color",
    "view_fg_color", "headerbar_bg_color", "headerbar_fg_color",
    "headerbar_border_color", "headerbar_backdrop_color", "headerbar_shade_color",
    "card_bg_color", "card_fg_color", "card_shade_color",
    "popover_bg_color", "popover_fg_color", "scrollbar_outline_color",
    "shade_color"
  }

  /** A key is recognised exactly when it is one of `RecognisedKeys`. */
  lemma KeyTableDomain(key: string)
    ensures KeyToSlot(key).Some? <==> key in RecognisedKeys
  {
  }

  /** `"name"` is not a key: the name field cannot be read or written through the table. */
  lemma NameIsNotAKey()
    ensures "name" !in RecognisedKeys
  {
  }

  /** The table's entries for the accent and destructive-action colours. */
  lemma AccentAndDestructiveKeys()
    ensures KeyToSlot("accent_bg_color") == Some(AccentBgColor)
    ensures KeyToSlot("accent_fg_color") == Some(AccentFgColor)
    ensures KeyToSlot("accent_color") == Some(AccentColor)
    ensures KeyToSlot("destructive_bg_color") == Some(DestructiveBgColor)
    ensures KeyToSlot("destructive_fg_color") == Some(DestructiveFgColor)
    ensures KeyToSlot("destructive_color") == Some(DestructiveColor)
  {
  }

  /** The table's entries for the success and warning colours and their aliases. */
  lemma SuccessAndWarningKeys()
    ensures KeyToSlot("success_color") == Some(SuccessColor)
    ensures KeyToSlot("success_bg_color") == Some(SuccessColor)
    ensures KeyToSlot("success_fg_color") == Some(SuccessColor)
    ensures KeyToSlot("warning_color") == Some(WarningColor)
    ensures KeyToSlot("warning_bg_color") == Some(WarningColor)
    ensures KeyToSlot("warning_fg_color") == Some(WarningColor)
  {
  }

  /** The table's entries for the error colour and its aliases. */
  lemma ErrorKeys()
    ensures KeyToSlot("error_color") == Some(ErrorColor)
    ensures KeyToSlot("error_bg_color") == Some(ErrorColor)
    ensures KeyToSlot("error_fg_color") == Some(ErrorColor)
  {
  }

  /** The table's entries for the view and window colours. */
  lemma ViewAndWindowKeys()
    ensures KeyToSlot("view_bg_color") == Some(ViewBgColor)
    ensures KeyToSlot("view_fg_color") == Some(ViewFgColor)
    ensures KeyToSlot("window_bg_color") == Some(WindowBgColor)
    ensures KeyToSlot("window_fg_color") == Some(WindowFgColor)
  {
  }

  /** The table's entries for the header bar colours. */
  lemma HeaderbarKeys()
    ensures KeyToSlot("headerbar_bg_color") == Some(HeaderbarBgColor)
    ensures KeyToSlot("headerbar_fg_color") == Some(HeaderbarFgColor)
    ensures KeyToSlot("headerbar_border_color") == Some(HeaderbarBorderColor)
    ensures KeyToSlot("headerbar_backdrop_color") == Some(HeaderbarBackdropColor)
    ensures KeyToSlot("headerbar_shade_color") == Some(HeaderbarShadeColor)
  {
  }

  /** The table's entries for the card colours. */
  lemma CardKeys()
    ensures KeyToSlot("card_bg_color") == Some(CardBgColor)
    ensures KeyToSlot("card_fg_color") == Some(CardFgColor)
    ensures KeyToSlot("card_shade_color") == Some(CardShadeColor)
  {
  }

  /** The table's entries for the popover colours. */
  lemma PopoverKeys()
    ensures KeyToSlot("popover_bg_color") == Some(PopoverBgColor)
    ensures KeyToSlot("popover_fg_color") == Some(PopoverFgColor)
  {
  }

  /** The table's entries for the scrollbar outline and shade colours. */
  lemma MiscellaneousKeys()
    ensures KeyToSlot("scrollbar_outline_color") == Some(ScrollbarOutlineColor)
    ensures KeyToSlot("shade_color") == Some(ShadeColor)
  {
  }

  /** Every field's name is a key, and it designates that field, except that a
      status variant's name designates its status colour. */
  lemma FieldNamesAreKeys(s: Slot)
    ensures SlotName(s) in RecognisedKeys
    ensures KeyToSlot(SlotName(s)) == Some(WriteTarget(s))
  {
    match s {
    case AccentBgColor | AccentFgColor | AccentColor | DestructiveBgColor | DestructiveFgColor | DestructiveColor =>
      AccentAndDestructiveKeys();
    case SuccessColor | SuccessBgColor | SuccessFgColor | WarningColor | WarningBgColor | WarningFgColor =>
      SuccessAndWarningKeys();
    case ErrorColor | ErrorBgColor | ErrorFgColor =>
      ErrorKeys();
    case ViewBgColor | ViewFgColor | WindowBgColor | WindowFgColor =>
      ViewAndWindowKeys();
    case HeaderbarBgColor | HeaderbarFgColor | HeaderbarBorderColor | HeaderbarBackdropColor | HeaderbarShadeColor =>
      HeaderbarKeys();
    case CardBgColor | CardFgColor | CardShadeColor =>
      CardKeys();
    case PopoverBgColor | PopoverFgColor =>
      PopoverKeys();
    case ScrollbarOutlineColor | ShadeColor =>
      MiscellaneousKeys();
    }
    KeyTableDomain(SlotName(s));
  }

  /** Every field's name designates a field, as `FieldNamesAreKeys` states for one field. */
  lemma AllFieldNamesAreKeys()
    ensures forall s :: SlotName(s) in RecognisedKeys && KeyToSlot(SlotName(s)) == Some(WriteTarget(s))
  {
    forall s ensures SlotName(s) in RecognisedKeys && KeyToSlot(SlotName(s)) == Some(WriteTarget(s)) {
      FieldNamesAreKeys(s);
    }
  }

  // ---------------------------------------------------------------------------
  // Field values

  /** The colour fields of a record: a slot is in the map exactly when its field
      holds `Some`. */
  type Palette = map<Slot, string>

  /** The value of one field. */
  function Lookup(p: Palette, s: Slot): Option<string>
  {
    if s in p then Some(p[s]) else None
  }

  /** The fields after `s` is assigned `value`. */
  function Assign(p: Palette, s: Slot, value: Option<string>): (r: Palette)
    ensures Lookup(r, s) == value
    ensures forall t :: t != s ==> Lookup(r, t) == Lookup(p, t)
  {
    match value
    case Some(v) => p[s := v]
    case None => p - {s}
  }

  const InvalidKey := "Invalid key"

  /** What `set_key(key, value)` makes of the fields `p`: an unknown key is
      refused; a field's name assigns that field, a status variant's name its
      status colour instead. */
  function WriteKey(p: Palette, key: string, value: Option<string>): (r: Result<Palette, Error>)
    ensures r.Ok? <==> key in RecognisedKeys
    ensures r.Err? ==> r.error == Bail(InvalidKey)
    ensures forall s :: key == SlotName(s) ==> r == Ok(Assign(p, WriteTarget(s), value))
    ensures r.Ok? ==> forall s :: IsStatusVariant(s) ==> Lookup(r.value, s) == Lookup(p, s)
  {
    KeyTableDomain(key);
    AllFieldNamesAreKeys();
    match KeyToSlot(key)
    case None => Err(Bail(InvalidKey))
    case Some(s) => Ok(Assign(p, s, value))
  }

  /** What `get_key(key)` returns from the fields `p`: `None` for an unknown key;
      for a field's name, that field, or a status variant's status colour. */
  function ReadKey(p: Palette, key: string): (r: Option<string>)
    ensures key !in RecognisedKeys ==> r == None
    ensures forall s :: key == SlotName(s) ==> r == Lookup(p, WriteTarget(s))
  {
    KeyTableDomain(key);
    AllFieldNamesAreKeys();
    match KeyToSlot(key)
    case None => None
    case Some(s) => Lookup(p, s)
  }

  /** A recognised key reads back what it last wrote. */
  lemma ReadKeyAfterWriteKey(p: Palette, key: string, value: Option<string>)
    requires key in RecognisedKeys
    ensures WriteKey(p, key, value).Ok?
    ensures ReadKey(WriteKey(p, key, value).value, key) == value
  {
    KeyTableDomain(key);
  }

  /** A write through a key changes exactly one field; the other keys read as before. */
  lemma WriteKeyChangesOneField(p: Palette, key: string, value: Option<string>)
    requires key in RecognisedKeys
    ensures exists t :: !IsStatusVariant(t) && WriteKey(p, key, value).value == Assign(p, t, value)
  {
    KeyTableDomain(key);
    var t := KeyToSlot(key).value;
    assert WriteKey(p, key, value).value == Assign(p, t, value);
  }

  // ---------------------------------------------------------------------------
  // The stylesheet

  /** The entry `writeln!` appends for a set field: the keyword, the field
      name, a space, the value as given and a closing `;` and newline. */
  function DefineLine(s: Slot, value: string): (line: string)
    ensures |line| == 14 + |SlotName(s)| + 1 + |value| + 2
    ensures line[..14] == "@define-color "
    ensures line[14..14 + |SlotName(s)|] == SlotName(s)
    ensures line[14 + |SlotName(s)|] == ' '
    ensures line[15 + |SlotName(s)|..|line| - 2] == value
    ensures line[|line| - 2..] == ";\n"
  {
    "@define-color " + SlotName(s) + " " + value + ";\n"
  }

  /** The slots of `order` that are set in `p`, in the order of `order`: the
      fields that produce a line. */
  function Emitted(p: Palette, order: seq<Slot>): (r: seq<Slot>)
    ensures forall s :: s in r ==> s in p
  {
    if order == [] then []
    else
      var rest := Emitted(p, order[..|order| - 1]);
      var last := order[|order| - 1];
      if last in p then rest + [last] else rest
  }

  /** The lines for `slots`, concatenated. */
  function Render(p: Palette, slots: seq<Slot>): string
    requires forall s :: s in slots ==> s in p
  {
    if slots == [] then ""
    else
      var last := slots[|slots| - 1];
      Render(p, slots[..|slots| - 1]) + DefineLine(last, p[last])
  }

  /** The stylesheet `as_gtk_css` returns for the fields `p`: one
      `@define-color` line per set field, in `CssOrder`. */
  function Css(p: Palette): string
  {
    Render(p, Emitted(p, CssOrder()))
  }

  /** Every slot that produces a line is a slot of `order`. */
  lemma {:induction false} EmittedFromOrder(p: Palette, order: seq<Slot>)
    ensures forall s :: s in Emitted(p, order) ==> s in order
  {
    if order != [] {
      var init := order[..|order| - 1];
      EmittedFromOrder(p, init);
      assert forall s :: s in init ==> s in order;
    }
  }

  /** A set slot produces as many lines as it has occurrences in `order`; an unset slot none. */
  lemma {:induction false} EmittedCount(p: Palette, order: seq<Slot>, s: Slot)
    ensures multiset(Emitted(p, order))[s] == if s in p then multiset(order)[s] else 0
  {
    if order != [] {
      var init, last := order[..|order| - 1], order[|order| - 1];
      EmittedCount(p, init, s);
      assert order == init + [last];
    }
  }

  /** The lines keep the order of `order`. */
  lemma {:induction false} EmittedKeepsOrder(p: Palette, order: seq<Slot>)
    requires Ascending(order)
    ensures Ascending(Emitted(p, order))
  {
    if order != [] {
      var init, last := order[..|order| - 1], order[|order| - 1];
      var e := Emitted(p, init);
      EmittedKeepsOrder(p, init);
      EmittedFromOrder(p, init);
      if last in p {
        forall i, j | 0 <= i < j < |e + [last]|
          ensures CssIndex((e + [last])[i]) < CssIndex((e + [last])[j])
        {
          if j == |e| {
            assert e[i] in e;
            var k :| 0 <= k < |init| && init[k] == e[i];
            assert order[k] == e[i];
          }
        }
      }
    }
  }

  /** An ascending sequence holds each slot at most once. */
  lemma {:induction false} AscendingCount(q: seq<Slot>, s: Slot)
    requires Ascending(q)
    ensures multiset(q)[s] == if s in q then 1 else 0
  {
    if q != [] {
      var init, last := q[..|q| - 1], q[|q| - 1];
      assert q == init + [last];
      assert Ascending(init);
      AscendingCount(init, s);
      forall k | 0 <= k < |init|
        ensures init[k] != last
      {
        assert CssIndex(q[k]) < CssIndex(q[|q| - 1]);
      }
    }
  }

  /** Over an ascending order that holds every slot, a set slot produces
      exactly one line and an unset one none, and the lines stay in order. */
  lemma EmittedOnce(p: Palette, order: seq<Slot>, s: Slot)
    requires Ascending(order) && s in order
    ensures multiset(Emitted(p, order))[s] == if s in p then 1 else 0
    ensures Ascending(Emitted(p, order))
  {
    EmittedCount(p, order, s);
    AscendingCount(order, s);
    EmittedKeepsOrder(p, order);
  }

  /** `as_gtk_css` emits exactly one line for each set field, none for an unset
      one, and emits them in `CssOrder`. */
  lemma CssDefinesEachSetFieldOnce(p: Palette, s: Slot)
    ensures multiset(Emitted(p, CssOrder()))[s] == if s in p then 1 else 0
    ensures Ascending(Emitted(p, CssOrder()))
  {
    CssOrderListsEverySlot();
    CssOrderIsAscending();
    assert CssOrder()[CssIndex(s)] in CssOrder();
    EmittedOnce(p, CssOrder(), s);
  }

  /** No field set, no line. */
  lemma {:induction false} EmittedOfNoColors(order: seq<Slot>)
    ensures Emitted(map[], order) == []
  {
    if order != [] {
      EmittedOfNoColors(order[..|order| - 1]);
    }
  }

  /** The default record renders as the empty stylesheet. */
  lemma CssOfNoColors()
    ensures Css(map[]) == ""
  {
    EmittedOfNoColors(CssOrder());
  }

  /** In a sequence made only of copies of `s`, `s` occurs `|q|` times. */
  lemma {:induction false} OnlyCopy(q: seq<Slot>, s: Slot)
    requires forall t :: t in q ==> t == s
    ensures multiset(q)[s] == |q|
  {
    if q != [] {
      var init := q[..|q| - 1];
      assert q == init + [q[|q| - 1]];
      assert forall t :: t in init ==> t in q;
      assert q[|q| - 1] in q;
      OnlyCopy(init, s);
    }
  }

  /** One field set: the stylesheet is that field's line. */
  lemma CssOfOneColor(s: Slot, value: string)
    ensures Css(map[s := value]) == DefineLine(s, value)
  {
    var p := map[s := value];
    var e := Emitted(p, CssOrder());
    CssDefinesEachSetFieldOnce(p, s);
    OnlyCopy(e, s);
    assert e == [s];
    assert Render(p, e) == Render(p, []) + DefineLine(s, value);
  }

  // ---------------------------------------------------------------------------
  // The record

  /** The contents of a `.ron` file: a record's name and fields, as values. */
  datatype Record = Record(name: string, colors: Palette)

  /** A `ColorOverrides` value held by the program, which `set_key` updates in place. */
  class ColorOverrides {
    var name: string
    var colors: Palette

    /** `ColorOverrides::default()`: an empty name and no colour set. */
    constructor Default()
      ensures name == "" && colors == map[]
    {
      name := "";
      colors := map[];
    }

    /** The record deserialised from `r`. */
    constructor FromRecord(r: Record)
      ensures name == r.name && colors == r.colors
    {
      name := r.name;
      colors := r.colors;
    }

    /** The record as `save` serialises it. */
    function Snapshot(): Record
      reads this
    {
      Record(name, colors)
    }

    /** `set_key`: assigns the field the key designates, or refuses an unknown
        key with "Invalid key" and changes nothing. Never touches `name`. */
    method SetKey(key: string, value: Option<string>) returns (r: Outcome<Error>)
      modifies this
      ensures r == Pass <==> key in RecognisedKeys
      ensures r != Pass ==> r == Fail(Bail(InvalidKey)) && colors == old(colors)
      ensures r == Pass ==> colors == WriteKey(old(colors), key, value).value
      ensures name == old(name)
    {
      match WriteKey(colors, key, value)
      case Ok(p) =>
        colors := p;
        r := Pass;
      case Err(e) =>
        r := Fail(e);
    }

    /** `get_key`: reads the field the key designates (the status colour for
        a status variant); an unknown key, `"name"` among them, reads `None`. */
    function GetKey(key: string): (r: Option<string>)
      reads this
      ensures key !in RecognisedKeys ==> r == None
      ensures forall s :: key == SlotName(s) ==> r == Lookup(colors, WriteTarget(s))
    {
      ReadKey(colors, key)
    }

    /** `to_high_contrast`: a placeholder that gives back the record itself. */
    function ToHighContrast(): (t: ColorOverrides)
      ensures t == this
    {
      this
    }

    /** `as_gtk_css`: starting from an empty string, appends one line (a
        `writeln!`) for each set field, visiting the fields in `CssOrder`. The
        name plays no part. */
    method AsGtkCss() returns (css: string)
      ensures css == Css(colors)
    {
      var order := CssOrder();
      css := "";
      for i := 0 to |order|
        invariant css == Render(colors, Emitted(colors, order[..i]))
      {
        var s := order[i];
        ghost var done := Emitted(colors, order[..i]);
        assert order[..i + 1][..i] == order[..i];
        assert Emitted(colors, order[..i + 1]) == if s in colors then done + [s] else done;
        if s in colors {
          assert (done + [s])[..|done|] == done;
          css := css + DefineLine(s, colors[s]);
        }
      }
      assert order[..|order|] == order;
    }

    /** `save`: writes the record to `<name>.ron`, replacing any earlier file. */
    method Save(dir: Directory<Document<Record>>)
      modifies dir
      ensures dir.files == old(dir.files)[RonFileName(name) := Parsed(Snapshot())]
    {
      dir.Put(RonFileName(name), Parsed(Record(name, colors)));
    }
  }

  // ---------------------------------------------------------------------------
  // Storage

  /** The file a record named `name` is stored in. */
  function RonFileName(name: string): (f: string)
    ensures |f| == |name| + 4 && f[..|name|] == name
    ensures f[|name|..] == ".ron"
  {
    name + ".ron"
  }

  /** Distinct names give distinct file names. Names are compared as strings:
      two names that the file system resolves to one path are not told apart. */
  lemma RonFileNameInjective(a: string, b: string)
    requires RonFileName(a) == RonFileName(b)
    ensures a == b
  {
    assert a == RonFileName(a)[..|a|];
  }

  /** `set_key` followed by `get_key` on the same object and a recognised key
      gives back the value written, `None` included. */
  method SetKeyThenGetKey(o: ColorOverrides, key: string, value: Option<string>) returns (r: Option<string>)
    requires key in RecognisedKeys
    modifies o
    ensures r == value
    ensures o.name == old(o.name) && o.colors == WriteKey(old(o.colors), key, value).value
  {
    ReadKeyAfterWriteKey(o.colors, key, value);
    var _ := o.SetKey(key, value);
    r := o.GetKey(key);
  }

  /** The message `load_from_name` fails with when the file is absent. */
  const LoadFailed := "Failed to write RON theme."

  /** What `load_from_name(name)` returns when the colour-override directory holds `files`. */
  function Stored(files: map<string, Document<Record>>, name: string): (r: Result<Record, Error>)
    ensures RonFileName(name) !in files ==> r == Err(Bail(LoadFailed))
    ensures r.Ok? ==> RonFileName(name) in files && files[RonFileName(name)] == Parsed(r.value)
    ensures RonFileName(name) in files && files[RonFileName(name)].Parsed? ==> r == Ok(files[RonFileName(name)].value)
    ensures RonFileName(name) in files && files[RonFileName(name)].Malformed? ==> r == Err(ParseError)
  {
    if RonFileName(name) !in files then Err(Bail(LoadFailed))
    else match files[RonFileName(name)]
      case Parsed(c) => Ok(c)
      case Malformed => Err(ParseError)
  }

  /** `load_from_name`: reads `<name>.ron` into a new value; fails when the file
      is absent or unreadable. */
  method LoadFromName(name: string, dir: Directory<Document<Record>>) returns (r: Result<ColorOverrides, Error>)
    ensures Stored(dir.files, name).Err? ==> r == Err(Stored(dir.files, name).error)
    ensures Stored(dir.files, name).Ok? ==> r.Ok? && fresh(r.value) && r.value.Snapshot() == Stored(dir.files, name).value
  {
    var found := dir.Find(RonFileName(name));
    if found.None? {
      r := Err(Bail(LoadFailed));
    } else if found.value.Malformed? {
      r := Err(ParseError);
    } else {
      var o := new ColorOverrides.FromRecord(found.value.value);
      r := Ok(o);
    }
  }

  /** A saved record loads back by its name. */
  lemma LoadAfterSave(files: map<string, Document<Record>>, c: Record)
    ensures Stored(files[RonFileName(c.name) := Parsed(c)], c.name) == Ok(c)
  {
  }

  /** Saving a record leaves every other name's record as it was. */
  lemma SaveKeepsOtherRecords(files: map<string, Document<Record>>, c: Record, other: string)
    requires other != c.name
    ensures Stored(files[RonFileName(c.name) := Parsed(c)], other) == Stored(files, other)
  {
    if RonFileName(other) == RonFileName(c.name) {
      RonFileNameInjective(other, c.name);
    }
  }
}
