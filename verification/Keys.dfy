/** The text form of terminal keys (crates/sessiontap-core/src/terminal.rs:108-291). */
module Keys {
  import opened Common

  datatype NamedKey =
    | Up | Down | Left | Right | Escape | Tab | BackTab | Enter | Space | Backspace | CtrlC
    | Home | End | PageUp | PageDown | Delete | F(n: nat)

  const ALL: seq<NamedKey> := [
    Up, Down, Left, Right, Escape, Tab, BackTab, Enter, Space, Backspace, CtrlC, Home, End, PageUp, PageDown, Delete,
    F(1), F(2), F(3), F(4), F(5), F(6), F(7), F(8), F(9), F(10), F(11), F(12)]

  datatype Mods = Mods(ctrl: bool, alt: bool)

  datatype KeyBase = Named(key: NamedKey) | Char(c: char)

  datatype Key = Key(mods: Mods, base: KeyBase)

  /** Numbers outside 1 to 12 print like one inside. */
  function FunctionName(n: nat): string {
    var names := ["f1", "f2", "f3", "f4", "f5", "f6", "f7", "f8", "f9", "f10", "f11", "f12"];
    names[(if n == 0 then 0 else n - 1) % 12]
  }

  function AsStr(key: NamedKey): string {
    match key
    case Up => "up"
    case Down => "down"
    case Left => "left"
    case Right => "right"
    case Escape => "escape"
    case Tab => "tab"
    case BackTab => "back_tab"
    case Enter => "enter"
    case Space => "space"
    case Backspace => "backspace"
    case CtrlC => "ctrl_c"
    case Home => "home"
    case End => "end"
    case PageUp => "page_up"
    case PageDown => "page_down"
    case Delete => "delete"
    case F(n) => FunctionName(n)
  }

  function PrintBase(base: KeyBase): string {
    match base
    case Named(key) => AsStr(key)
    case Char(c) => [c]
  }

  function Prefixed(held: bool, prefix: string, text: string): string {
    if held then prefix + text else text
  }

  function Print(key: Key): string {
    Prefixed(key.mods.ctrl, "ctrl+", Prefixed(key.mods.alt, "alt+", PrintBase(key.base)))
  }

  /** The first listed key with this name, from the `i`th on. */
  function FindNamed(value: string, i: nat): (r: Option<NamedKey>)
    requires i <= |ALL|
    ensures r.Some? ==> r.value in ALL && AsStr(r.value) == value
    ensures r.None? ==> forall j :: i <= j < |ALL| ==> AsStr(ALL[j]) != value
    decreases |ALL| - i
  {
    if i == |ALL| then None
    else if AsStr(ALL[i]) == value then Some(ALL[i])
    else FindNamed(value, i + 1)
  }

  function ParseBase(value: string): Option<KeyBase> {
    var named := FindNamed(value, 0);
    if named.Some? then Some(Named(named.value))
    else if |value| == 1 && !IsControl(value[0]) then Some(Char(value[0]))
    else None
  }

  /** Takes a prefix off a longer text. */
  function AfterPrefix(value: string, prefix: string): Option<string> {
    if |prefix| < |value| && value[..|prefix|] == prefix then Some(value[|prefix|..]) else None
  }

  /** Modifiers, and what follows them. */
  datatype Stripped = Stripped(ctrl: bool, alt: bool, rest: string)

  function Strip(value: string): Stripped {
    var ctrl := AfterPrefix(value, "ctrl+");
    var rest := if ctrl.Some? then ctrl.value else value;
    var alt := AfterPrefix(rest, "alt+");
    Stripped(ctrl.Some?, alt.Some?, if alt.Some? then alt.value else rest)
  }

  function Parse(value: string): Option<Key> {
    var s := Strip(value);
    match ParseBase(s.rest)
    case Some(base) => Some(Key(Mods(s.ctrl, s.alt), base))
    case None => None
  }

  method FromStr(value: string) returns (r: Option<Key>)
    ensures r == Parse(value)
  {
    var mods := Mods(false, false);
    var rest := value;
    var base := AfterPrefix(rest, "ctrl+");
    if base.Some? {
      mods := mods.(ctrl := true);
      rest := base.value;
    }
    base := AfterPrefix(rest, "alt+");
    if base.Some? {
      mods := mods.(alt := true);
      rest := base.value;
    }
    var parsed := ParseBase(rest);
    if parsed.None? {
      return None;
    }
    return Some(Key(mods, parsed.value));
  }

  // ---- Names are distinct ----

  /** A listed key, recovered from the length and the ends of its name. */
  function Recover(length: nat, first: char, last: char): NamedKey {
    if length == 2 then (if first == 'u' then Up else F(Digit(last)))
    else if length == 3 then (if first == 't' then Tab else if first == 'e' then End else F(10 + Digit(last)))
    else if length == 4 then (if first == 'd' then Down else if first == 'l' then Left else Home)
    else if length == 5 then (if first == 'r' then Right else if first == 'e' then Enter else Space)
    else if length == 6 then (if first == 'e' then Escape else if first == 'c' then CtrlC else Delete)
    else if length == 7 then PageUp
    else if length == 8 then BackTab
    else if first == 'b' then Backspace
    else PageDown
  }

  function Digit(c: char): nat {
    if '0' <= c <= '9' then (c - '0') as int else 0
  }

  predicate Listed(key: NamedKey) {
    key.F? ==> 1 <= key.n <= 12
  }

  lemma NamesRecover(key: NamedKey)
    requires Listed(key)
    ensures var name := AsStr(key);
            2 <= |name| <= 9 && Recover(|name|, name[0], name[|name| - 1]) == key
  {
  }

  lemma ListedIsAll(key: NamedKey)
    ensures Listed(key) <==> key in ALL
  {
    var names := [Up, Down, Left, Right, Escape, Tab, BackTab, Enter, Space, Backspace, CtrlC, Home, End, PageUp, PageDown, Delete];
    assert ALL[..16] == names;
    if key.F? && Listed(key) {
      assert ALL[15 + key.n] == key;
    } else if Listed(key) {
      assert key in names;
    }
  }

  /** A name is found as the key that prints it. */
  lemma NameIsFound(key: NamedKey)
    requires Listed(key)
    ensures FindNamed(AsStr(key), 0) == Some(key)
  {
    ListedIsAll(key);
    var found := FindNamed(AsStr(key), 0);
    assert found.Some?;
    ListedIsAll(found.value);
    NamesRecover(key);
    NamesRecover(found.value);
  }

  // ---- Round trips ----

  /** Keys the text form can carry: a listed named key, or a character that is not a control one. */
  predicate Printable(key: Key) {
    match key.base
    case Named(named) => Listed(named)
    case Char(c) => !IsControl(c)
  }

  lemma ShortIsNoName(value: string)
    requires |value| == 1
    ensures FindNamed(value, 0) == None
  {
    var found := FindNamed(value, 0);
    if found.Some? {
      ListedIsAll(found.value);
      NamesRecover(found.value);
    }
  }

  lemma FunctionNameIsListed(n: nat)
    ensures var m := (if n == 0 then 0 else n - 1) % 12 + 1; FunctionName(n) == AsStr(F(m)) && Listed(F(m))
  {
  }

  lemma NamedRoundTrip(key: NamedKey)
    ensures ParseBase(AsStr(key)) == Some(Named(key)) <==> Listed(key)
    ensures AsStr(key) != []
  {
    if Listed(key) {
      NameIsFound(key);
      NamesRecover(key);
    } else {
      var m := (if key.n == 0 then 0 else key.n - 1) % 12 + 1;
      FunctionNameIsListed(key.n);
      NameIsFound(F(m));
      NamesRecover(F(m));
    }
  }

  lemma BaseRoundTrip(base: KeyBase)
    ensures PrintBase(base) != []
    ensures ParseBase(PrintBase(base)) == Some(base) <==> Printable(Key(Mods(false, false), base))
  {
    match base
    case Named(key) => NamedRoundTrip(key);
    case Char(c) => ShortIsNoName([c]);
  }

  /** No modifier prefix fits in front of this text. */
  predicate Plain(text: string) {
    (|text| > 4 ==> text[3] != '+') && (|text| > 5 ==> text[4] != '+')
  }

  lemma PlainHasNoPrefix(text: string)
    requires Plain(text)
    ensures AfterPrefix(text, "ctrl+").None? && AfterPrefix(text, "alt+").None?
  {
    if |text| > 5 {
      assert text[..5][4] == text[4] && "ctrl+"[4] == '+';
    }
    if |text| > 4 {
      assert text[..4][3] == text[3] && "alt+"[3] == '+';
    }
  }

  lemma NamesArePlain(key: NamedKey)
    ensures Plain(AsStr(key))
  {
    if key.F? {
      FunctionNameIsShort(key.n);
    }
  }

  lemma FunctionNameIsShort(n: nat)
    ensures |FunctionName(n)| <= 3
  {
  }

  lemma BaseIsPlain(base: KeyBase)
    ensures Plain(PrintBase(base))
  {
    if base.Named? {
      NamesArePlain(base.key);
    }
  }

  lemma PrefixComesOff(prefix: string, rest: string)
    requires rest != []
    ensures AfterPrefix(prefix + rest, prefix) == Some(rest)
  {
  }

  lemma AltIsNotCtrl(rest: string)
    ensures AfterPrefix("alt+" + rest, "ctrl+").None?
  {
    var text := "alt+" + rest;
    if |text| > 5 {
      assert text[..5][0] == 'a';
    }
  }

  /** Stripping takes off the modifiers that printing put on. */
  lemma PrefixesComeOff(ctrl: bool, alt: bool, text: string)
    requires text != [] && Plain(text)
    ensures Strip(Prefixed(ctrl, "ctrl+", Prefixed(alt, "alt+", text))) == Stripped(ctrl, alt, text)
  {
    PlainHasNoPrefix(text);
    var inner := Prefixed(alt, "alt+", text);
    assert AfterPrefix(inner, "alt+") == if alt then Some(text) else None by { PrefixComesOff("alt+", text); }
    assert AfterPrefix(inner, "ctrl+").None? by { AltIsNotCtrl(text); }
    PrefixComesOff("ctrl+", inner);
  }

  /** A key survives printing and parsing exactly when it is printable. */
  lemma ParsePrintIff(key: Key)
    ensures Parse(Print(key)) == Some(key) <==> Printable(key)
  {
    BaseRoundTrip(key.base);
    BaseIsPlain(key.base);
    PrefixesComeOff(key.mods.ctrl, key.mods.alt, PrintBase(key.base));
  }

  lemma BaseIsExact(value: string)
    requires ParseBase(value).Some?
    ensures PrintBase(ParseBase(value).value) == value && Printable(Key(Mods(false, false), ParseBase(value).value))
  {
    var named := FindNamed(value, 0);
    if named.Some? {
      ListedIsAll(named.value);
    } else {
      assert value == [value[0]];
    }
  }

  lemma StripIsExact(value: string)
    ensures var s := Strip(value); Prefixed(s.ctrl, "ctrl+", Prefixed(s.alt, "alt+", s.rest)) == value
  {
  }

  /** Every accepted text prints back to itself, so no key has two spellings. */
  lemma PrintParse(value: string)
    requires Parse(value).Some?
    ensures Print(Parse(value).value) == value && Printable(Parse(value).value)
  {
    StripIsExact(value);
    BaseIsExact(Strip(value).rest);
  }

  /** A thirteenth function key comes back as the first, and a newline does not come back at all. */
  lemma UnprintableKeysAreLost(mods: Mods)
    ensures Parse(Print(Key(mods, Named(F(13))))) == Some(Key(mods, Named(F(1))))
    ensures Parse(Print(Key(mods, Char('\n')))) == None
  {
    ParsePrintIff(Key(mods, Named(F(1))));
    assert Print(Key(mods, Named(F(13)))) == Print(Key(mods, Named(F(1)))) by {
      assert AsStr(F(13)) == AsStr(F(1));
    }
    hide FindNamed;
    ShortIsNoName("\n");
    BaseIsPlain(Char('\n'));
    PrefixesComeOff(mods.ctrl, mods.alt, "\n");
  }

  /** The names, in full. */
  lemma NamesAre()
    ensures AsStr(Up) == "up" && AsStr(Down) == "down" && AsStr(Left) == "left" && AsStr(Right) == "right"
    ensures AsStr(Escape) == "escape" && AsStr(Tab) == "tab" && AsStr(BackTab) == "back_tab"
    ensures AsStr(Enter) == "enter" && AsStr(Space) == "space" && AsStr(Backspace) == "backspace"
    ensures AsStr(CtrlC) == "ctrl_c" && AsStr(Home) == "home" && AsStr(End) == "end"
    ensures AsStr(PageUp) == "page_up" && AsStr(PageDown) == "page_down" && AsStr(Delete) == "delete"
    ensures forall n :: 1 <= n <= 9 ==> AsStr(F(n)) == ['f', '0' + n as char]
    ensures forall n :: 10 <= n <= 12 ==> AsStr(F(n)) == ['f', '1', '0' + (n - 10) as char]
  {
  }

  /** Modifiers come in this order, and every printable ASCII character is a key. */
  lemma SpellingIs(mods: Mods, base: KeyBase)
    ensures Print(Key(mods, base)) ==
            (if mods.ctrl then "ctrl+" else "") + (if mods.alt then "alt+" else "") + PrintBase(base)
    ensures forall c :: ' ' <= c <= '~' ==> Printable(Key(mods, Char(c)))
    ensures forall c :: c < ' ' || '\U{7F}' <= c <= '\U{9F}' ==> !Printable(Key(mods, Char(c)))
  {
  }
}
