/**
 * The on-screen keyboard: three static key layouts, and the module-level
 * keyboard record as a small state machine (shift mode, visible layout, the
 * slide-animation counter driven by a timer, the create-once base widget).
 *
 * Key events passed to the input queue are appended to `sent`; widget
 * visibility is kept as booleans (`baseVisible` for the keyboard, one per
 * layout in `layoutShown`); redraw requests are counted.
 */
module GuiKeyboard {
  import opened GuiPrivate

  type FontId = nat

  /** A key descriptor: the character `c`, the character `cs` used in shift
      mode ('\0' when there is none) and the special function `s` (0 for an
      ordinary character key). The float position and width are left out. */
  datatype KeyBtn = KeyBtn(c: char, cs: char, s: nat)

  const Special123: nat := 1
  const SpecialAbc: nat := 2
  const SpecialCalc: nat := 3
  const SpecialShift: nat := 4
  const SpecialBackspace: nat := 5
  const SpecialEnter: nat := 6
  const SpecialHide: nat := 7

  const ShiftCleared: int := 0
  const ShiftNormal: int := 1
  const ShiftUppercase: int := 2

  const ActionHide: int := 1
  const ActionShow: int := 2
  /** Largest value of the slide-animation counter: keyboard fully down. */
  const ActionMax: int := 10

  /** Indices of the layouts in the layout table. */
  const LayoutIndexAbc: nat := 0
  const LayoutIndex123: nat := 1
  const LayoutIndexCalc: nat := 2

  /** An event passed to the input queue: a character, the backspace key, or
      the empty key that ends each key press. */
  datatype KeyEvent = Char(ch: char) | BackspaceKey | EndOfKey

  function Key(c: char, cs: char): KeyBtn {
    KeyBtn(c, cs, 0)
  }

  function Plain(c: char): KeyBtn {
    KeyBtn(c, '\0', 0)
  }

  function Special(s: nat): KeyBtn {
    KeyBtn('\0', '\0', s)
  }

  /** Letters. The third row pairs 'g' with 'V', as the table does. */
  const LayoutAbc: seq<seq<KeyBtn>> := [
    [Key('q', 'Q'), Key('w', 'W'), Key('e', 'E'), Key('r', 'R'), Key('t', 'T'),
     Key('z', 'Z'), Key('u', 'U'), Key('i', 'I'), Key('o', 'O'), Key('p', 'P')],
    [Key('a', 'A'), Key('s', 'S'), Key('d', 'D'), Key('f', 'F'), Key('g', 'G'),
     Key('h', 'H'), Key('j', 'J'), Key('k', 'K'), Key('l', 'L')],
    [Special(SpecialShift), Key('y', 'Y'), Key('x', 'X'), Key('c', 'C'), Key('g', 'V'),
     Key('b', 'B'), Key('n', 'N'), Key('m', 'M'), Special(SpecialBackspace)],
    [Special(Special123), Plain(' '), Plain('.'), Special(SpecialEnter), Special(SpecialHide)]
  ]

  /** Digits and punctuation. */
  const Layout123: seq<seq<KeyBtn>> := [
    [Plain('1'), Plain('2'), Plain('3'), Plain('4'), Plain('5'),
     Plain('6'), Plain('7'), Plain('8'), Plain('9'), Plain('0')],
    [Plain('-'), Plain('/'), Plain(':'), Plain(';'), Plain('('),
     Plain(')'), Plain('$'), Plain('&'), Plain('@'), Plain('"')],
    [Special(SpecialCalc), Plain('.'), Plain(','), Plain('?'), Plain('!'), Plain('\''),
     Special(SpecialBackspace)],
    [Special(SpecialAbc), Plain(' '), Plain('.'), Special(SpecialEnter), Special(SpecialHide)]
  ]

  /** Symbols. */
  const LayoutCalc: seq<seq<KeyBtn>> := [
    [Plain('['), Plain(']'), Plain('{'), Plain('}'), Plain('#'),
     Plain('%'), Plain('^'), Plain('*'), Plain('+'), Plain('=')],
    [Plain('_'), Plain('\\'), Plain('|'), Plain('~'), Plain('<'),
     Plain('>'), Plain('$'), Plain(':'), Plain(';'), Plain('-')],
    [Special(Special123), Plain('.'), Plain(','), Plain('?'), Plain('!'), Plain('\''),
     Special(SpecialBackspace)],
    [Special(SpecialAbc), Plain(' '), Plain('.'), Special(SpecialEnter), Special(SpecialHide)]
  ]

  /** The layout table, in creation order; the first one is the main layout. */
  const Layouts: seq<seq<seq<KeyBtn>>> := [LayoutAbc, Layout123, LayoutCalc]

  // ---------------------------------------------------------------------
  // What a key does
  // ---------------------------------------------------------------------

  predicate IsLayoutKey(s: nat) {
    s == Special123 || s == SpecialAbc || s == SpecialCalc
  }

  /** The layout a layout-switching key brings up. */
  function LayoutOf(s: nat): (i: nat)
    requires IsLayoutKey(s)
    ensures i < |Layouts|
    ensures s == SpecialAbc <==> i == LayoutIndexAbc
    ensures s == Special123 <==> i == LayoutIndex123
    ensures s == SpecialCalc <==> i == LayoutIndexCalc
  {
    if s == SpecialAbc then LayoutIndexAbc else if s == Special123 then LayoutIndex123 else LayoutIndexCalc
  }

  /** Visibility of the three layouts when only layout i is shown. */
  function ShownOnly(i: nat): (shown: seq<bool>)
    requires i < |Layouts|
    ensures |shown| == |Layouts|
    ensures forall j :: 0 <= j < |shown| ==> (shown[j] <==> j == i)
  {
    seq(|Layouts|, j => j == i)
  }

  /** The character a character key stands for in the given shift state: the
      shift character when shift is on (normal or uppercase) and the key has
      one, the plain character otherwise. */
  function CharFor(b: KeyBtn, shift: int): (ch: char)
    ensures ch == b.c || ch == b.cs
    ensures shift == ShiftCleared || b.cs == '\0' ==> ch == b.c
    ensures shift != ShiftCleared && b.cs != '\0' ==> ch == b.cs
  {
    if shift != ShiftCleared && b.cs != '\0' then b.cs else b.c
  }

  /** The text a key button shows when drawn. */
  function Label(b: KeyBtn, shift: int): (text: string)
    ensures |text| >= 1
    ensures b.s == 0 ==> |text| == 1
  {
    if b.s == Special123 then "123"
    else if b.s == SpecialAbc then "abc"
    else if b.s == SpecialCalc then "#+="
    else if b.s == SpecialBackspace then "Back"
    else if b.s == SpecialEnter then "Ent"
    else if b.s == SpecialShift then "Shift"
    else if b.s == SpecialHide then "Hide"
    else [CharFor(b, shift)]
  }

  /** Key events that a click on the key sends, in the shift state before the
      click: a character key sends its character, Backspace sends the
      backspace key, each followed by the empty key; other keys send none. */
  function EmittedBy(b: KeyBtn, shift: int): (events: seq<KeyEvent>)
    ensures |events| == (if b.s == 0 || b.s == SpecialBackspace then 2 else 0)
    ensures |events| == 2 ==> events[1] == EndOfKey
    ensures b.s == SpecialBackspace ==> events[0] == BackspaceKey
    ensures b.s == 0 ==> events[0] == Char(CharFor(b, shift))
  {
    if b.s == SpecialBackspace then [BackspaceKey, EndOfKey]
    else if b.s == 0 then [Char(CharFor(b, shift)), EndOfKey]
    else []
  }

  /** Shift state after a click on the key. */
  function ShiftAfterClick(b: KeyBtn, shift: int): (r: int)
    requires ShiftCleared <= shift <= ShiftUppercase
    ensures ShiftCleared <= r <= ShiftUppercase
    ensures IsLayoutKey(b.s) ==> r == ShiftCleared
    ensures b.s == SpecialShift ==> r == (if shift == ShiftCleared then ShiftNormal else ShiftCleared)
    ensures EmittedBy(b, shift) != [] ==> r == (if shift == ShiftUppercase then ShiftUppercase else ShiftCleared)
    ensures !IsLayoutKey(b.s) && b.s != SpecialShift && EmittedBy(b, shift) == [] ==> r == shift
  {
    if IsLayoutKey(b.s) then ShiftCleared
    else if b.s == SpecialShift then (if shift == ShiftCleared then ShiftNormal else ShiftCleared)
    else if b.s == 0 || b.s == SpecialBackspace then (if shift == ShiftUppercase then shift else ShiftCleared)
    else shift
  }

  /** Events sent and final shift state for clicks on the keys `bs`, one
      after the other. */
  function Typed(bs: seq<KeyBtn>, shift: int): (r: (seq<KeyEvent>, int))
    requires ShiftCleared <= shift <= ShiftUppercase
    ensures ShiftCleared <= r.1 <= ShiftUppercase
    ensures |r.0| <= 2 * |bs| && Paired(r.0)
  {
    if bs == [] then ([], shift)
    else
      var rest := Typed(bs[1..], ShiftAfterClick(bs[0], shift));
      PairedAppend(EmittedBy(bs[0], shift), rest.0);
      (EmittedBy(bs[0], shift) + rest.0, rest.1)
  }

  /** Sent events come in pairs, each closed by the empty key. */
  predicate Paired(es: seq<KeyEvent>) {
    |es| % 2 == 0 && forall i :: 0 <= i < |es| / 2 ==> es[2 * i + 1] == EndOfKey
  }

  lemma PairedAppend(e: seq<KeyEvent>, f: seq<KeyEvent>)
    requires Paired(e) && Paired(f)
    ensures Paired(e + f)
  {
    forall i | 0 <= i < |e + f| / 2
      ensures (e + f)[2 * i + 1] == EndOfKey
    {
      if 2 * i + 1 >= |e| {
        var j := i - |e| / 2;
        assert 0 <= j < |f| / 2 && (e + f)[2 * i + 1] == f[2 * j + 1];
      }
    }
  }

  // ---------------------------------------------------------------------
  // The slide animation
  // ---------------------------------------------------------------------

  /** The animation counter after one timer tick: counting up to ActionMax
      while hiding, down to 0 while showing; unchanged for any other action. */
  function NextActionValue(action: int, v: int): (r: int)
    ensures action == ActionHide ==> r == (if v < ActionMax then v + 1 else v)
    ensures action == ActionShow ==> r == (if v != 0 then v - 1 else v)
    ensures action != ActionHide && action != ActionShow ==> r == v
  {
    if action == ActionHide then (if v < ActionMax then v + 1 else v)
    else if action == ActionShow then (if v != 0 then v - 1 else v)
    else v
  }

  /** The tick stops the timer: hiding with the counter already at the
      bottom, or showing once the counter has reached 0. */
  function TimerStops(action: int, v: int): (stops: bool)
    ensures stops ==> action == ActionHide || action == ActionShow
    ensures stops && 0 <= v <= ActionMax ==>
      NextActionValue(action, v) == (if action == ActionHide then ActionMax else 0)
  {
    (action == ActionHide && v >= ActionMax) ||
    (action == ActionShow && NextActionValue(action, v) == 0)
  }

  /** Vertical position, in percent of the screen, for a counter value: the
      keyboard covers the lower half at 0 and is just below the screen at
      ActionMax. */
  function PositionFor(v: int): (p: int)
    ensures 0 <= v <= ActionMax ==> 50 <= p <= 100
    ensures v == 0 <==> p == 50
    ensures v == ActionMax <==> p == 100
  {
    50 + v * 5
  }

  /** The counter after n ticks. */
  function Ticks(action: int, v: int, n: nat): int
    decreases n
  {
    if n == 0 then v else Ticks(action, NextActionValue(action, v), n - 1)
  }

  // ---------------------------------------------------------------------
  // The button widgets that Init creates
  // ---------------------------------------------------------------------

  /** A key button: the layout and row it is on, its descriptor, and its
      vertical position in percent of the layout. */
  datatype ButtonWidget = ButtonWidget(layout: nat, row: nat, key: KeyBtn, y: int)

  /** Vertical position of a button on row k. */
  function RowPosition(k: nat): int {
    1 + 25 * k
  }

  /** The buttons of row k of layout l. */
  function RowWidgets(l: nat, k: nat, btns: seq<KeyBtn>): (ws: seq<ButtonWidget>)
    ensures |ws| == |btns|
    ensures forall z :: 0 <= z < |ws| ==> ws[z] == ButtonWidget(l, k, btns[z], RowPosition(k))
  {
    seq(|btns|, z requires 0 <= z < |btns| => ButtonWidget(l, k, btns[z], RowPosition(k)))
  }

  /** Number of keys in a layout. */
  function KeyCount(rows: seq<seq<KeyBtn>>): nat {
    if rows == [] then 0 else KeyCount(rows[..|rows| - 1]) + |rows[|rows| - 1]|
  }

  /** The buttons of all rows of layout l, row by row. */
  function LayoutWidgets(l: nat, rows: seq<seq<KeyBtn>>): (ws: seq<ButtonWidget>)
    ensures |ws| == KeyCount(rows)
    ensures forall w :: w in ws ==> w.layout == l && w.row < |rows| && w.y == RowPosition(w.row)
  {
    if rows == [] then []
    else LayoutWidgets(l, rows[..|rows| - 1]) + RowWidgets(l, |rows| - 1, rows[|rows| - 1])
  }

  /** The buttons of all layouts, layout by layout. */
  function KeyboardWidgets(layouts: seq<seq<seq<KeyBtn>>>): (ws: seq<ButtonWidget>)
    ensures forall w :: w in ws ==> w.layout < |layouts| && w.y == RowPosition(w.row)
  {
    if layouts == [] then []
    else KeyboardWidgets(layouts[..|layouts| - 1]) + LayoutWidgets(|layouts| - 1, layouts[|layouts| - 1])
  }

  // ---------------------------------------------------------------------
  // The keyboard record
  // ---------------------------------------------------------------------

  class Keyboard {
    var isShift: int
    var handle: Option<Handle>
    var font: Option<FontId>
    var defaultFont: Option<FontId>
    var action: int
    var actionValue: int
    /** The base widget's timer exists, and it is running. */
    var hasTimer: bool
    var timerRunning: bool
    /** Visibility and vertical position (percent) of the base widget. */
    var baseVisible: bool
    var posY: int
    var layoutShown: seq<bool>
    var buttons: seq<ButtonWidget>
    var sent: seq<KeyEvent>
    /** Redraw requests for the main layout and for the base widget. */
    var layoutInvalidations: nat
    var invalidations: nat

    /** The shift state and the animation counter are in range, and the
        layouts exist exactly when the base widget does. */
    ghost predicate Valid()
      reads this`isShift, this`actionValue, this`handle, this`layoutShown
    {
      && ShiftCleared <= isShift <= ShiftUppercase
      && 0 <= actionValue <= ActionMax
      && (handle.None? ==> layoutShown == [])
      && (handle.Some? ==> |layoutShown| == |Layouts|)
    }

    /** The statically initialised record: everything zero except the
        animation counter, which starts at its maximum. */
    constructor ()
      ensures Valid()
      ensures isShift == ShiftCleared && handle == None && font == None && defaultFont == None
      ensures action == 0 && actionValue == ActionMax
      ensures !hasTimer && !timerRunning && !baseVisible && posY == 0
      ensures layoutShown == [] && buttons == [] && sent == []
      ensures layoutInvalidations == 0 && invalidations == 0
    {
      isShift, handle, font, defaultFont := ShiftCleared, None, None, None;
      action, actionValue := 0, ActionMax;
      hasTimer, timerRunning, baseVisible, posY := false, false, false, 0;
      layoutShown, buttons, sent := [], [], [];
      layoutInvalidations, invalidations := 0, 0;
    }

    /** SHIFT_DISABLE: clear shift mode, redrawing the main layout only if it
        was on. */
    method ShiftDisable()
      modifies this`isShift, this`layoutInvalidations
      ensures isShift == ShiftCleared
      ensures layoutInvalidations == old(layoutInvalidations) + (if old(isShift) != ShiftCleared then 1 else 0)
    {
      if isShift != ShiftCleared {
        isShift := ShiftCleared;
        layoutInvalidations := layoutInvalidations + 1;
      }
    }

    /** SHIFT_ENABLE: set the shift mode, redrawing the main layout only when
        shift goes from cleared to on. */
    method ShiftEnable(mode: int)
      modifies this`isShift, this`layoutInvalidations
      ensures isShift == mode
      ensures layoutInvalidations == old(layoutInvalidations) +
                                     (if old(isShift) == ShiftCleared && mode != ShiftCleared then 1 else 0)
    {
      if isShift == ShiftCleared && mode != ShiftCleared {
        layoutInvalidations := layoutInvalidations + 1;
      }
      isShift := mode;
    }

    /** SHIFT_TOGGLE: logical negation of the shift state, so both normal and
        uppercase become cleared; always redraws the main layout. */
    method ShiftToggle()
      modifies this`isShift, this`layoutInvalidations
      ensures isShift == (if old(isShift) == ShiftCleared then ShiftNormal else ShiftCleared)
      ensures layoutInvalidations == old(layoutInvalidations) + 1
    {
      isShift := if isShift == ShiftCleared then ShiftNormal else ShiftCleared;
      layoutInvalidations := layoutInvalidations + 1;
    }

    /** `guii_keyboard_hide`: hide the base widget; 0 when there is none or
        the GUI is not initialized. */
    method Hide(gui: Gui) returns (ret: int)
      modifies this`baseVisible
      ensures ret == (if gui.initialized && handle.Some? then 1 else 0)
      ensures baseVisible == (if ret == 1 then false else old(baseVisible))
    {
      ret := AssertParams(handle.Some?, gui, 0, 1);
      if ret == 1 {
        baseVisible := false;
      }
    }

    /** `guii_keyboard_show`: take over the font of the widget being edited
        when it has one (`requesterFont`; None also for a NULL widget), then
        show the base widget. */
    method Show(gui: Gui, requesterFont: Option<FontId>) returns (ret: int)
      modifies this`font, this`invalidations, this`baseVisible
      ensures ret == (if gui.initialized && handle.Some? then 1 else 0)
      ensures ret == 1 ==>
        && baseVisible
        && font == (if requesterFont.Some? then requesterFont else old(font))
        && invalidations == old(invalidations) + (if requesterFont.Some? then 1 else 0)
      ensures ret == 0 ==> baseVisible == old(baseVisible) && font == old(font) && invalidations == old(invalidations)
    {
      ret := AssertParams(handle.Some?, gui, 0, 1);
      if ret == 1 {
        if requesterFont.Some? {
          font := requesterFont;
          invalidations := invalidations + 1;
        }
        baseVisible := true;
      }
    }

    /** Click on a key button. Layout keys show their layout, hide the other
        two and clear shift; Shift toggles shift; Hide hides the keyboard;
        character keys and Backspace send their key and the empty key, and
        then clear shift unless it is in uppercase mode. Enter has no action. */
    method Click(gui: Gui, btn: KeyBtn)
      requires Valid() && handle.Some?
      modifies this`isShift, this`layoutShown, this`layoutInvalidations, this`baseVisible, this`sent
      ensures Valid()
      ensures sent == old(sent) + EmittedBy(btn, old(isShift))
      ensures isShift == ShiftAfterClick(btn, old(isShift))
      ensures layoutInvalidations == old(layoutInvalidations) + (if isShift != old(isShift) then 1 else 0)
      ensures layoutShown == (if IsLayoutKey(btn.s) then ShownOnly(LayoutOf(btn.s)) else old(layoutShown))
      ensures baseVisible == (if btn.s == SpecialHide && gui.initialized then false else old(baseVisible))
    {
      var ch: Option<KeyEvent> := None;
      if btn.s != 0 {
        if IsLayoutKey(btn.s) {
          layoutShown := ShownOnly(LayoutOf(btn.s));
          ShiftDisable();
        } else if btn.s == SpecialShift {
          ShiftToggle();
        } else if btn.s == SpecialBackspace {
          ch := Some(BackspaceKey);
        } else if btn.s == SpecialHide {
          var _ := Hide(gui);
        }
      }
      if ch.Some? || btn.s == 0 {
        var key := if ch.Some? then ch.value else Char(CharFor(btn, isShift));
        if isShift != ShiftUppercase {
          ShiftDisable();
        }
        sent := sent + [key, EndOfKey];
      }
    }

    /** Double click on a key button: on Shift, switch to uppercase mode and
        report it handled; on any other key, do nothing. */
    method DblClick(btn: KeyBtn) returns (handled: bool)
      requires Valid()
      modifies this`isShift, this`layoutInvalidations
      ensures Valid()
      ensures handled <==> btn.s == SpecialShift
      ensures isShift == (if handled then ShiftUppercase else old(isShift))
      ensures layoutInvalidations == old(layoutInvalidations) +
                                     (if handled && old(isShift) == ShiftCleared then 1 else 0)
    {
      handled := false;
      if btn.s == SpecialShift {
        ShiftEnable(ShiftUppercase);
        handled := true;
      }
    }

    /** One tick of the slide-animation timer. */
    method TimerTick()
      requires Valid()
      modifies this`actionValue, this`posY, this`baseVisible, this`timerRunning
      ensures Valid()
      ensures actionValue == NextActionValue(action, old(actionValue))
      ensures posY == (if actionValue != old(actionValue) then PositionFor(actionValue) else old(posY))
      ensures baseVisible == (if action == ActionHide && old(actionValue) >= ActionMax then false
                              else if action == ActionShow && old(actionValue) == ActionMax then true
                              else old(baseVisible))
      ensures timerRunning == (if TimerStops(action, old(actionValue)) then false else old(timerRunning))
    {
      if action == ActionHide {
        if actionValue < ActionMax {
          actionValue := actionValue + 1;
          posY := PositionFor(actionValue);
        } else {
          baseVisible := false;
          timerRunning := false;
        }
      } else if action == ActionShow {
        if actionValue != 0 {
          if actionValue == ActionMax {
            baseVisible := true;
          }
          actionValue := actionValue - 1;
          posY := PositionFor(actionValue);
        }
        if actionValue == 0 {
          timerRunning := false;
        }
      }
    }

    /** Buttons for the keys of row k of layout l, one by one. */
    static method CreateRowButtons(l: nat, k: nat, row: seq<KeyBtn>) returns (ws: seq<ButtonWidget>)
      ensures ws == RowWidgets(l, k, row)
    {
      ws := [];
      var z := 0;
      while z < |row|
        invariant z <= |row|
        invariant ws == RowWidgets(l, k, row[..z])
      {
        ws := ws + [ButtonWidget(l, k, row[z], RowPosition(k))];
        z := z + 1;
      }
    }

    /** Buttons for all rows of layout l, row by row. */
    static method CreateLayoutButtons(l: nat, layout: seq<seq<KeyBtn>>) returns (ws: seq<ButtonWidget>)
      ensures ws == LayoutWidgets(l, layout)
    {
      ws := [];
      var k := 0;
      while k < |layout|
        invariant k <= |layout|
        invariant ws == LayoutWidgets(l, layout[..k])
      {
        var row := CreateRowButtons(l, k, layout[k]);
        ws := ws + row;
        assert layout[..k + 1][..k] == layout[..k];
        k := k + 1;
      }
      assert layout[..k] == layout;
    }

    /** The layout loop of Init: for each layout its visibility (only the
        first is shown) and the buttons of all its rows. */
    static method CreateLayouts(layouts: seq<seq<seq<KeyBtn>>>) returns (shown: seq<bool>, ws: seq<ButtonWidget>)
      ensures |shown| == |layouts|
      ensures forall j :: 0 <= j < |shown| ==> (shown[j] <==> j == 0)
      ensures ws == KeyboardWidgets(layouts)
    {
      shown, ws := [], [];
      var i := 0;
      while i < |layouts|
        invariant i <= |layouts|
        invariant |shown| == i
        invariant forall j :: 0 <= j < i ==> (shown[j] <==> j == 0)
        invariant ws == KeyboardWidgets(layouts[..i])
      {
        shown := shown + [i == 0];
        var created := CreateLayoutButtons(i, layouts[i]);
        ws := ws + created;
        assert layouts[..i + 1][..i] == layouts[..i];
        i := i + 1;
      }
      assert layouts[..i] == layouts;
    }

    /** Init step of the base widget: place it at half height and hide it,
        remember its font as the default font, then create the layouts (only
        the first one shown) and, row by row, a button for every key. */
    method OnInit(baseFont: Option<FontId>)
      modifies this`posY, this`baseVisible, this`defaultFont, this`layoutShown, this`buttons
      ensures posY == PositionFor(0) && !baseVisible && defaultFont == baseFont
      ensures layoutShown == ShownOnly(LayoutIndexAbc)
      ensures buttons == KeyboardWidgets(Layouts)
    {
      posY := PositionFor(0);
      baseVisible := false;
      defaultFont := baseFont;
      layoutShown, buttons := CreateLayouts(Layouts);
      assert layoutShown == ShownOnly(LayoutIndexAbc);
    }

    /** `gui_keyboard_create`: create the base widget only when there is none
        yet, and return the handle either way. Creating it runs PreInit, which
        makes the timer; when the widget or the timer cannot be allocated the
        creation fails and no handle is returned. On success Init runs. */
    method Create(allocOk: bool, timerOk: bool, newHandle: Handle, baseFont: Option<FontId>) returns (h: Option<Handle>)
      requires Valid()
      modifies this`handle, this`hasTimer, this`posY, this`baseVisible, this`defaultFont, this`layoutShown, this`buttons
      ensures Valid()
      ensures h == handle
      ensures old(handle).Some? ==> h == old(handle)
      ensures old(handle).Some? || !(allocOk && timerOk) ==>
        && handle == old(handle) && hasTimer == old(hasTimer) && posY == old(posY)
        && baseVisible == old(baseVisible) && defaultFont == old(defaultFont)
        && layoutShown == old(layoutShown) && buttons == old(buttons)
      ensures old(handle).None? && allocOk && timerOk ==>
        && h == Some(newHandle) && hasTimer
        && posY == PositionFor(0) && !baseVisible && defaultFont == baseFont
        && layoutShown == ShownOnly(LayoutIndexAbc)
        && buttons == KeyboardWidgets(Layouts)
    {
      if handle.None? {
        if allocOk && timerOk {
          hasTimer := true;
          OnInit(baseFont);
          handle := Some(newHandle);
        }
      }
      h := handle;
    }
  }

  // ---------------------------------------------------------------------
  // Properties
  // ---------------------------------------------------------------------

  /** A character key is drawn with exactly the character a click on it
      sends, in every shift state. */
  lemma LabelIsTypedCharacter(b: KeyBtn, shift: int)
    requires b.s == 0
    ensures |Label(b, shift)| == 1
    ensures EmittedBy(b, shift) == [Char(Label(b, shift)[0]), EndOfKey]
  {
  }

  /** Special keys show a fixed name, whatever the shift state. */
  lemma SpecialLabelIgnoresShift(b: KeyBtn, shift1: int, shift2: int)
    requires 1 <= b.s <= SpecialHide
    ensures Label(b, shift1) == Label(b, shift2)
  {
  }

  /** Because of the 'g'/'V' pair on the third letter row, the letter
      layout draws 'g' twice without shift, has no key for 'v', and sends 'V'
      from that key when shift is on. */
  lemma LetterLayoutHasNoV()
    ensures Label(LayoutAbc[1][4], ShiftCleared) == "g" && Label(LayoutAbc[2][4], ShiftCleared) == "g"
    ensures forall k, z :: 0 <= k < |LayoutAbc| && 0 <= z < |LayoutAbc[k]| ==> LayoutAbc[k][z].c != 'v'
    ensures EmittedBy(LayoutAbc[2][4], ShiftNormal) == [Char('V'), EndOfKey]
  {
  }

  /** Clicking Shift twice restores cleared or normal shift, but uppercase
      mode comes back as normal mode. */
  lemma ShiftTwice(shift: int)
    requires ShiftCleared <= shift <= ShiftUppercase
    ensures var s := Special(SpecialShift);
      ShiftAfterClick(s, ShiftAfterClick(s, shift)) == (if shift == ShiftUppercase then ShiftNormal else shift)
  {
  }

  /** A key that is neither a character key nor Backspace sends nothing;
      Enter in particular has no action at all. */
  lemma EnterDoesNothing(shift: int)
    requires ShiftCleared <= shift <= ShiftUppercase
    ensures EmittedBy(Special(SpecialEnter), shift) == []
    ensures ShiftAfterClick(Special(SpecialEnter), shift) == shift
  {
  }

  /** Backspace sends the same events in every shift state. */
  lemma BackspaceIgnoresShift(shift1: int, shift2: int)
    ensures EmittedBy(Special(SpecialBackspace), shift1) == EmittedBy(Special(SpecialBackspace), shift2)
  {
  }

  /** In uppercase mode, typing any sequence of character keys and
      Backspace keeps uppercase mode and sends, for each key, its shift
      character (or its plain one when it has none) followed by the empty
      key. */
  lemma {:induction false} UppercaseSticks(bs: seq<KeyBtn>)
    requires forall i :: 0 <= i < |bs| ==> bs[i].s == 0 || bs[i].s == SpecialBackspace
    ensures Typed(bs, ShiftUppercase).1 == ShiftUppercase
    ensures |Typed(bs, ShiftUppercase).0| == 2 * |bs|
    ensures forall i :: 0 <= i < |bs| ==>
      Typed(bs, ShiftUppercase).0[2 * i .. 2 * i + 2] == EmittedBy(bs[i], ShiftUppercase)
  {
    if bs != [] {
      UppercaseSticks(bs[1..]);
      var rest := Typed(bs[1..], ShiftUppercase).0;
      var all := Typed(bs, ShiftUppercase).0;
      assert all == EmittedBy(bs[0], ShiftUppercase) + rest;
      forall i | 0 <= i < |bs|
        ensures all[2 * i .. 2 * i + 2] == EmittedBy(bs[i], ShiftUppercase)
      {
        if i > 0 {
          assert all[2 * i .. 2 * i + 2] == rest[2 * (i - 1) .. 2 * (i - 1) + 2];
        }
      }
    }
  }

  /** Normal shift lasts for one key: of two character keys typed after
      Shift, only the first is shifted. */
  lemma NormalShiftIsOneShot(a: KeyBtn, b: KeyBtn)
    requires a.s == 0 && b.s == 0
    ensures Typed([a, b], ShiftNormal) == ([Char(CharFor(a, ShiftNormal)), EndOfKey, Char(b.c), EndOfKey], ShiftCleared)
  {
    assert [a, b][1..] == [b];
    assert [b][1..] == [];
    assert ShiftAfterClick(a, ShiftNormal) == ShiftCleared;
    assert ShiftAfterClick(b, ShiftCleared) == ShiftCleared;
    assert Typed([b][1..], ShiftCleared) == ([], ShiftCleared);
    assert EmittedBy(b, ShiftCleared) + [] == [Char(b.c), EndOfKey];
    assert Typed([b], ShiftCleared) == ([Char(b.c), EndOfKey], ShiftCleared);
    assert EmittedBy(a, ShiftNormal) + [Char(b.c), EndOfKey] == [Char(CharFor(a, ShiftNormal)), EndOfKey, Char(b.c), EndOfKey];
  }

  /** The animation counter stays within 0..ActionMax, so the position stays
      between 50 and 100 percent. */
  lemma TickKeepsRange(action: int, v: int)
    requires 0 <= v <= ActionMax
    ensures 0 <= NextActionValue(action, v) <= ActionMax
    ensures 50 <= PositionFor(NextActionValue(action, v)) <= 100
  {
  }

  /** Hiding from any counter value reaches the bottom after ActionMax - v
      ticks, and the next tick stops the timer. */
  lemma {:induction false} HideReachesBottom(v: int)
    requires 0 <= v <= ActionMax
    ensures Ticks(ActionHide, v, ActionMax - v) == ActionMax
    ensures TimerStops(ActionHide, Ticks(ActionHide, v, ActionMax - v))
    decreases ActionMax - v
  {
    if v < ActionMax {
      HideReachesBottom(v + 1);
    }
  }

  /** Showing from any counter value reaches 0 after v ticks; the tick that
      reaches 0 stops the timer. */
  lemma {:induction false} ShowReachesTop(v: int)
    requires 0 < v <= ActionMax
    ensures Ticks(ActionShow, v, v) == 0
    ensures TimerStops(ActionShow, Ticks(ActionShow, v, v - 1))
  {
    if v > 1 {
      ShowReachesTop(v - 1);
    }
  }

  /** Number of keys in a layout of four rows. */
  lemma KeyCountOfFourRows(rows: seq<seq<KeyBtn>>)
    requires |rows| == 4
    ensures KeyCount(rows) == |rows[0]| + |rows[1]| + |rows[2]| + |rows[3]|
  {
    assert rows[..3][..2] == rows[..2];
    assert rows[..2][..1] == rows[..1];
    assert rows[..1][..0] == [];
    assert KeyCount(rows[..1]) == |rows[0]|;
    assert KeyCount(rows[..2]) == KeyCount(rows[..1]) + |rows[1]|;
    assert KeyCount(rows[..3]) == KeyCount(rows[..2]) + |rows[2]|;
    assert rows[..|rows| - 1] == rows[..3];
  }

  /** Init creates one button for each of the 97 keys. */
  lemma ButtonCount()
    ensures |KeyboardWidgets(Layouts)| == 97
  {
    KeyCountOfFourRows(LayoutAbc);
    KeyCountOfFourRows(Layout123);
    KeyCountOfFourRows(LayoutCalc);
    assert Layouts[..2][..1] == Layouts[..1];
    assert Layouts[..1][..0] == [];
    assert |KeyboardWidgets(Layouts[..1])| == 33;
    assert |KeyboardWidgets(Layouts[..2])| == 33 + 32;
    assert Layouts[..|Layouts| - 1] == Layouts[..2];
  }
}
