/** A theme file holding a night and a day variant, and the settings panel that edits both.
    Keys are taken from any schema: each has a kind of value, and is either shared by the
    variants or set for each. */
module Themes {
  import opened Protocol
  import opened Text
  import opened Colors
  import opened DayWindow

  /** A colour; an optional text (a path, a font, a format); a number the panel keeps as
      text; or any other number, flag or choice. */
  datatype Kind = ColourKey | TextKey | NumberKey | ChoiceKey

  datatype Key = Key(name: string, kind: Kind, perVariant: bool)

  /** Numbers, flags and choices go by a code. */
  datatype Value = Colour(colour: Color) | Words(text: Option<string>) | Code(code: int)

  type Values = map<Key, Value>

  datatype Theme = Theme(isDay: bool, values: Values)

  predicate Typed(key: Key, v: Value) {
    match key.kind
    case ColourKey => v.Colour?
    case TextKey => v.Words?
    case NumberKey => v.Code?
    case ChoiceKey => v.Code?
  }

  predicate AllTyped(values: Values) {
    forall k :: k in values ==> Typed(k, values[k])
  }

  /** The two variants agree wherever they may not differ. */
  predicate Agree(a: Values, b: Values) {
    a.Keys == b.Keys && forall k :: k in a && !k.perVariant ==> a[k] == b[k]
  }

  // ---------- the file ----------

  /** A value as a file spells it. */
  datatype Raw = Str(s: string) | Num(n: int)

  datatype File = File(top: map<Key, Raw>, dayStart: Option<string>, dayEnd: Option<string>, day: Option<map<Key, Raw>>)

  /** The built-in variants, which differ only where they may, and have no optional text. */
  datatype Builtin = Builtin(night: Values, day: Values)

  predicate Sound(b: Builtin) {
    && Agree(b.night, b.day) && AllTyped(b.night) && AllTyped(b.day)
    && (forall k :: k in b.night && k.kind.TextKey? ==> b.night[k] == Words(None) && b.day[k] == Words(None))
  }

  /** A key's value where the file provides one; a malformed colour keeps what was there. */
  function Provided(key: Key, raw: Raw, current: Value): Value {
    match key.kind
    case ColourKey => if raw.Str? && Parse(raw.s).Some? then Colour(Parse(raw.s).value) else current
    case TextKey => if raw.Str? then Words(Some(raw.s)) else current
    case _ => if raw.Num? then Code(raw.n) else current
  }

  function Overlay(base: Values, raw: map<Key, Raw>, within: set<Key>): Values {
    map k | k in base :: if k in within && k in raw then Provided(k, raw[k], base[k]) else base[k]
  }

  function PerVariant(values: Values): set<Key> {
    set k | k in values && k.perVariant
  }

  function Shared(values: Values): set<Key> {
    set k | k in values && !k.perVariant
  }

  function Night(b: Builtin, f: File): Theme {
    Theme(false, Overlay(b.night, f.top, b.night.Keys))
  }

  /** The day variant: the shared keys from the top level, the others from its own table. */
  function Day(b: Builtin, f: File): Theme {
    var structural := Overlay(b.day, f.top, Shared(b.day));
    Theme(true, if f.day.None? then structural else Overlay(structural, f.day.value, PerVariant(b.day)))
  }

  function FileWindow(f: File): (nat, nat) {
    Window(f.dayStart, f.dayEnd)
  }

  predicate Fits(key: Key, raw: Raw) {
    if key.kind.ColourKey? || key.kind.TextKey? then raw.Str? else raw.Num?
  }

  /** A file is refused whole for a key that is unknown where it stands, or of the wrong
      type. */
  predicate Accepted(b: Builtin, f: File) {
    && f.top.Keys <= b.night.Keys && (forall k :: k in f.top ==> Fits(k, f.top[k]))
    && (f.day.Some? ==>
          f.day.value.Keys <= PerVariant(b.day) && forall k :: k in f.day.value ==> Fits(k, f.day.value[k]))
  }

  datatype Pair = Pair(night: Theme, day: Theme, window: (nat, nat))

  function ParsePair(b: Builtin, f: File): Option<Pair> {
    if Accepted(b, f) then Some(Pair(Night(b, f), Day(b, f), FileWindow(f))) else None
  }

  /** Whatever the file says, the variants agree on every shared key. */
  lemma VariantsAgree(b: Builtin, f: File)
    requires Sound(b)
    ensures Agree(Night(b, f).values, Day(b, f).values)
    ensures AllTyped(Night(b, f).values) && AllTyped(Day(b, f).values)
    ensures Night(b, f).values.Keys == b.night.Keys
  {
    hide Parse;
  }

  /** A number where text is wanted, or the other way about. */
  predicate WrongType(k: Key, raw: Raw) {
    (k.kind.ColourKey? || k.kind.TextKey?) == raw.Num?
  }

  /** A file is refused whole exactly if somewhere it has a key that has no place there, or one of
      the wrong type: any key of the schema may stand at the top, and only those that are set for
      each variant in the day table. */
  lemma RefusedIff(b: Builtin, f: File)
    requires Sound(b)
    ensures ParsePair(b, f) == None <==>
            || (exists k :: k in f.top && (k !in b.night || WrongType(k, f.top[k])))
            || (f.day.Some? &&
                exists k :: k in f.day.value && (k !in b.night || !k.perVariant || WrongType(k, f.day.value[k])))
  {
    hide Night, Day, FileWindow;
    assert forall k :: k in PerVariant(b.day) <==> k in b.night && k.perVariant;
  }

  /** What a file makes of every key, in either variant. The top level gives the night variant
      all its keys and the day variant those it shares; the day's own keys come from the day
      table alone, and without one, or where it is silent, they are the built-in day's. A colour
      that cannot be read is as good as absent. */
  lemma EveryKeyExactly(b: Builtin, f: File, k: Key)
    requires Sound(b) && Accepted(b, f) && k in b.night
    ensures var night, day := Night(b, f).values[k], Day(b, f).values[k];
            && (k !in f.top ==> night == b.night[k])
            && (k in f.top ==> MadeOf(k, f.top[k], b.night[k], night))
            && (!k.perVariant ==> day == night)
            && (k.perVariant && (f.day.None? || k !in f.day.value) ==> day == b.day[k])
            && (k.perVariant && f.day.Some? && k in f.day.value ==> MadeOf(k, f.day.value[k], b.day[k], day))
  {
    assert k.perVariant ==> k in PerVariant(b.day);
  }

  /** This value is what the text or number in a file says, or what was there before if it says
      no colour. */
  predicate MadeOf(k: Key, raw: Raw, before: Value, v: Value) {
    || (k.kind.ColourKey? && raw.Str? && v == if Parse(raw.s) == None then before else Colour(Parse(raw.s).value))
    || (k.kind.TextKey? && raw.Str? && v == Words(Some(raw.s)))
    || ((k.kind.NumberKey? || k.kind.ChoiceKey?) && raw.Num? && v == Code(raw.n))
  }

  /** A value as it is written; an absent text is not written at all. */
  function Spelled(v: Value): Option<Raw> {
    match v
    case Colour(c) => Some(Str(ToHex(c)))
    case Words(t) => if t.None? then None else Some(Str(t.value))
    case Code(n) => Some(Num(n))
  }

  function SpelledAll(values: Values, within: set<Key>): map<Key, Raw> {
    map k | k in values && k in within && Spelled(values[k]).Some? :: Spelled(values[k]).value
  }

  function Rendered(night: Values, day: Values, start: string, end: string): File {
    File(SpelledAll(night, night.Keys), Some(start), Some(end), Some(SpelledAll(day, PerVariant(day))))
  }

  lemma SpelledReadsBack(k: Key, v: Value, base: Value)
    requires Typed(k, v) && (k.kind.TextKey? ==> base == Words(None))
    ensures var raw := Spelled(v); (if raw.Some? then Provided(k, raw.value, base) else base) == v
  {
    hide Parse, ToHex;
    if v.Colour? {
      HexReadsBack(v.colour);
    }
  }

  lemma RenderedIsAccepted(b: Builtin, night: Values, day: Values, start: string, end: string)
    requires Sound(b) && Agree(night, day) && night.Keys == b.night.Keys && AllTyped(night) && AllTyped(day)
    ensures Accepted(b, Rendered(night, day, start, end))
  {
    hide ToHex;
  }

  /** Rendering a pair that agrees on the shared keys and parsing the file gives back the
      pair, exactly. */
  lemma RenderReadsBack(b: Builtin, night: Values, day: Values, start: string, end: string)
    requires Sound(b) && Agree(night, day) && night.Keys == b.night.Keys && AllTyped(night) && AllTyped(day)
    ensures ParsePair(b, Rendered(night, day, start, end)) ==
            Some(Pair(Theme(false, night), Theme(true, day), Window(Some(start), Some(end))))
  {
    NightReadsBack(b, night, day, start, end);
    DayReadsBack(b, night, day, start, end);
    RenderedIsAccepted(b, night, day, start, end);
    hide Night, Day, Accepted, Window, SpelledAll;
  }

  lemma NightReadsBack(b: Builtin, night: Values, day: Values, start: string, end: string)
    requires Sound(b) && night.Keys == b.night.Keys && AllTyped(night)
    ensures Night(b, Rendered(night, day, start, end)) == Theme(false, night)
  {
    hide Spelled, Provided, Parse;
    var f := Rendered(night, day, start, end);
    forall k | k in night
      ensures Night(b, f).values[k] == night[k]
    {
      SpelledReadsBack(k, night[k], b.night[k]);
    }
  }

  lemma DayReadsBack(b: Builtin, night: Values, day: Values, start: string, end: string)
    requires Sound(b) && Agree(night, day) && night.Keys == b.night.Keys && AllTyped(day)
    ensures Day(b, Rendered(night, day, start, end)) == Theme(true, day)
  {
    hide Spelled, Provided, Parse;
    var f := Rendered(night, day, start, end);
    forall k | k in day
      ensures Day(b, f).values[k] == day[k]
    {
      SpelledReadsBack(k, day[k], b.day[k]);
    }
  }

  // ---------- the panel ----------

  /** What the panel holds for a key: text being edited, or a chosen code. */
  datatype Field = Edited(text: string) | Chosen(code: int)

  type Fields = map<Key, Field>

  /** How numbers are shown and read. */
  datatype Numbers = Numbers(show: int -> string, read: string -> Option<int>)

  ghost predicate Faithful(n: Numbers) {
    forall i :: n.read(n.show(i)) == Some(i) && Trim(n.show(i)) == n.show(i)
  }

  function FieldOf(n: Numbers, key: Key, v: Value): Field {
    match v
    case Colour(c) => Edited(ToHex(c))
    case Words(t) => Edited(if t.None? then "" else t.value)
    case Code(i) => if key.kind.NumberKey? then Edited(n.show(i)) else Chosen(i)
  }

  function FieldsOf(n: Numbers, values: Values, within: set<Key>): Fields {
    map k | k in values && k in within :: FieldOf(n, k, values[k])
  }

  /** What a field stands for, if it can be read. */
  function ValueOf(n: Numbers, key: Key, field: Field): Option<Value> {
    match key.kind
    case ColourKey =>
      if field.Edited? && Parse(Trim(field.text)).Some? then Some(Colour(Parse(Trim(field.text)).value)) else None
    case TextKey =>
      if field.Edited? then Some(Words(if Trim(field.text) == "" then None else Some(Trim(field.text)))) else None
    case NumberKey =>
      if field.Edited? && n.read(Trim(field.text)).Some? then Some(Code(n.read(Trim(field.text)).value)) else None
    case ChoiceKey => if field.Chosen? then Some(Code(field.code)) else None
  }

  /** A value as the panel leaves it: texts trimmed, blank ones gone. */
  function Tidied(v: Value): Value {
    if v.Words? && v.text.Some? then
      (if Trim(v.text.value) == "" then Words(None) else Words(Some(Trim(v.text.value))))
    else v
  }

  function Tidy(values: Values): Values {
    map k | k in values :: Tidied(values[k])
  }

  /** The fields of the panel: each variant's own, and the shared ones. */
  datatype View = View(night: Fields, day: Fields, shared: Fields, dayStart: string, dayEnd: string)

  function FieldsFor(v: View, day: bool): Fields {
    v.shared + (if day then v.day else v.night)
  }

  predicate Readable(n: Numbers, fields: Fields) {
    forall k :: k in fields ==> ValueOf(n, k, fields[k]).Some?
  }

  function ReadAll(n: Numbers, fields: Fields): Values
    requires Readable(n, fields)
  {
    map k | k in fields :: ValueOf(n, k, fields[k]).value
  }

  /** One variant's theme, unless some field cannot be read. */
  function Build(n: Numbers, v: View, day: bool): Option<Theme> {
    if Readable(n, FieldsFor(v, day)) then Some(Theme(day, ReadAll(n, FieldsFor(v, day)))) else None
  }

  function Loaded(n: Numbers, night: Values, day: Values, window: (nat, nat)): View {
    View(FieldsOf(n, night, PerVariant(night)), FieldsOf(n, day, PerVariant(day)), FieldsOf(n, night, Shared(night)),
         MinutesToHhmm(window.0), MinutesToHhmm(window.1))
  }

  /** A night and a day variant that a file may hold. */
  predicate Loadable(night: Theme, day: Theme) {
    Agree(night.values, day.values) && AllTyped(night.values) && AllTyped(day.values)
  }

  lemma LoadThenBuildThemes(n: Numbers, night: Theme, day: Theme, window: (nat, nat))
    requires Faithful(n) && Loadable(night, day)
    ensures var v := Loaded(n, night.values, day.values, window);
            && OwnKeys(v)
            && Build(n, v, false) == Some(Theme(false, Tidy(night.values)))
            && Build(n, v, true) == Some(Theme(true, Tidy(day.values)))
  {
    hide Build, OwnKeys, Tidy, Faithful, Loaded;
    LoadThenBuild(n, night.values, day.values, window);
  }

  /** The window shown is the window set exactly if both of its ends are times of day. */
  lemma WindowShownIff(window: (nat, nat))
    ensures Window(Some(MinutesToHhmm(window.0)), Some(MinutesToHhmm(window.1))) == window <==>
            window.0 < MINUTES_PER_DAY && window.1 < MINUTES_PER_DAY
  {
    HhmmReadsBackIff(window.0);
    HhmmReadsBackIff(window.1);
  }

  /** The panel's state is its view; loading a pair overwrites all of it, and an edit one
      field of it. */
  class Panel {
    var night: Fields
    var day: Fields
    var shared: Fields
    var dayStart: string
    var dayEnd: string
    var editingDay: bool

    function Now(): View
      reads this
    {
      View(night, day, shared, dayStart, dayEnd)
    }

    method ApplyPair(n: Numbers, nightTheme: Theme, dayTheme: Theme, window: (nat, nat))
      modifies this`night, this`day, this`shared, this`dayStart, this`dayEnd
      ensures Now() == Loaded(n, nightTheme.values, dayTheme.values, window)
      ensures Faithful(n) && Loadable(nightTheme, dayTheme) ==>
                && OwnKeys(Now())
                && Build(n, Now(), false) == Some(Theme(false, Tidy(nightTheme.values)))
                && Build(n, Now(), true) == Some(Theme(true, Tidy(dayTheme.values)))
      ensures Window(Some(dayStart), Some(dayEnd)) == window <==>
                window.0 < MINUTES_PER_DAY && window.1 < MINUTES_PER_DAY
    {
      hide FieldsOf, Build, OwnKeys, Tidy, Faithful, Loadable, MinutesToHhmm, Window, PerVariant, Shared;
      night := FieldsOf(n, nightTheme.values, PerVariant(nightTheme.values));
      day := FieldsOf(n, dayTheme.values, PerVariant(dayTheme.values));
      shared := FieldsOf(n, nightTheme.values, Shared(nightTheme.values));
      dayStart := MinutesToHhmm(window.0);
      dayEnd := MinutesToHhmm(window.1);
      if Faithful(n) && Loadable(nightTheme, dayTheme) {
        LoadThenBuildThemes(n, nightTheme, dayTheme, window);
      }
      WindowShownIff(window);
    }

    /** An edit of a key set per variant leaves the other variant alone; an edit of a shared
        one shows in both. */
    method Set(key: Key, text: string)
      requires OwnKeys(Now())
      requires if key.perVariant then key in night else key in shared
      modifies this
      ensures OwnKeys(Now()) && editingDay == old(editingDay)
      ensures var edited := old(FieldsFor(Now(), editingDay))[key := Edited(text)];
              FieldsFor(Now(), editingDay) == edited
      ensures var other := old(FieldsFor(Now(), !editingDay));
              FieldsFor(Now(), !editingDay) == if key.perVariant then other else other[key := Edited(text)]
    {
      if !key.perVariant {
        UpdateLeft(shared, night, key, Edited(text));
        UpdateLeft(shared, day, key, Edited(text));
        shared := shared[key := Edited(text)];
      } else if editingDay {
        UpdateRight(shared, day, key, Edited(text));
        day := day[key := Edited(text)];
      } else {
        UpdateRight(shared, night, key, Edited(text));
        night := night[key := Edited(text)];
      }
    }
  }

  lemma UpdateRight(a: Fields, b: Fields, key: Key, f: Field)
    ensures a + b[key := f] == (a + b)[key := f]
  {
  }

  lemma UpdateLeft(a: Fields, b: Fields, key: Key, f: Field)
    requires key !in b
    ensures a[key := f] + b == (a + b)[key := f]
  {
  }

  /** Each key has its field in the place for it. */
  predicate OwnKeys(v: View) {
    && v.night.Keys == v.day.Keys
    && (forall k :: k in v.night ==> k.perVariant)
    && (forall k :: k in v.shared ==> !k.perVariant)
  }

  lemma FieldReadsBack(n: Numbers, k: Key, v: Value)
    requires Faithful(n) && Typed(k, v)
    ensures ValueOf(n, k, FieldOf(n, k, v)) == Some(Tidied(v))
  {
    hide Parse, ToHex, Trim;
    match v {
      case Colour(c) =>
        HexReadsBack(c);
        CanonicalIsTrimmed(ToHex(c));
      case Words(t) =>
        TrimEmpty();
      case Code(i) =>
        assert n.read(n.show(i)) == Some(i);
    }
  }

  lemma TrimEmpty()
    ensures Trim("") == ""
  {
  }

  lemma CanonicalIsTrimmed(s: string)
    requires Canonical(s)
    ensures Trim(s) == s
  {
    assert Lower(s[|s| - 1]);
    TrimLeavesAlone(s);
  }

  /** Loading a pair that agrees and building it again gives the pair with its texts tidied,
      and nothing else changed. */
  lemma LoadThenBuild(n: Numbers, night: Values, day: Values, window: (nat, nat))
    requires Faithful(n) && Agree(night, day) && AllTyped(night) && AllTyped(day)
    ensures var v := Loaded(n, night, day, window);
            && OwnKeys(v)
            && Build(n, v, false) == Some(Theme(false, Tidy(night)))
            && Build(n, v, true) == Some(Theme(true, Tidy(day)))
  {
    hide ValueOf, FieldOf, Tidied, Typed, MinutesToHhmm, Faithful;
    var v := Loaded(n, night, day, window);
    forall k | k in night
      ensures ValueOf(n, k, FieldOf(n, k, night[k])) == Some(Tidied(night[k]))
    {
      FieldReadsBack(n, k, night[k]);
    }
    forall k | k in day
      ensures ValueOf(n, k, FieldOf(n, k, day[k])) == Some(Tidied(day[k]))
    {
      FieldReadsBack(n, k, day[k]);
    }
    BuildIs(n, v, false, night);
    BuildIs(n, v, true, day);
  }

  lemma BuildIs(n: Numbers, v: View, day: bool, values: Values)
    requires FieldsFor(v, day).Keys == values.Keys
    requires forall k :: k in values ==> ValueOf(n, k, FieldsFor(v, day)[k]) == Some(Tidied(values[k]))
    ensures Build(n, v, day) == Some(Theme(day, Tidy(values)))
  {
    hide ValueOf, Tidied, FieldsFor;
    var fields := FieldsFor(v, day);
    assert Readable(n, fields);
    assert ReadAll(n, fields) == Tidy(values);
  }

  /** Two variants built from one panel agree, and every value is of its kind, whatever the
      edits. */
  lemma BuiltPairAgrees(n: Numbers, v: View)
    requires OwnKeys(v) && Build(n, v, false).Some? && Build(n, v, true).Some?
    ensures var night, day := Build(n, v, false).value.values, Build(n, v, true).value.values;
            Agree(night, day) && AllTyped(night) && AllTyped(day) && night.Keys == v.shared.Keys + v.night.Keys
  {
    hide Parse, Trim;
  }

  /** What is saved is what was built: whatever the edits, if both variants can be built, the
      file rendered from them parses to exactly those two, and to the window entered. */
  lemma SavePreservesMeaning(b: Builtin, n: Numbers, v: View)
    requires Sound(b) && OwnKeys(v) && v.shared.Keys + v.night.Keys == b.night.Keys
    requires Build(n, v, false).Some? && Build(n, v, true).Some?
    ensures var night, day := Build(n, v, false).value, Build(n, v, true).value;
            ParsePair(b, Rendered(night.values, day.values, v.dayStart, v.dayEnd)) ==
            Some(Pair(night, day, Window(Some(v.dayStart), Some(v.dayEnd))))
  {
    BuiltPairAgrees(n, v);
    hide *;
    var night, day := Build(n, v, false).value, Build(n, v, true).value;
    BuiltIsMarked(n, v, false);
    BuiltIsMarked(n, v, true);
    RenderReadsBack(b, night.values, day.values, v.dayStart, v.dayEnd);
  }

  lemma BuiltIsMarked(n: Numbers, v: View, day: bool)
    ensures Build(n, v, day).Some? ==> Build(n, v, day).value.isDay == day
  {
  }

  /** The whole cycle, for any file that parses: loading the pair, building it, rendering and
      parsing again gives the pair with its texts tidied and the same window. So the pair
      comes back unchanged exactly if every text in it was trimmed and not blank. */
  lemma LoadSaveLoad(b: Builtin, n: Numbers, f: File)
    requires Sound(b) && Faithful(n) && ParsePair(b, f).Some?
    ensures var p := ParsePair(b, f).value;
            var v := Loaded(n, p.night.values, p.day.values, p.window);
            && Build(n, v, false).Some? && Build(n, v, true).Some?
            && var night, day := Build(n, v, false).value.values, Build(n, v, true).value.values;
               var q := ParsePair(b, Rendered(night, day, v.dayStart, v.dayEnd));
               && q == Some(Pair(Theme(false, Tidy(p.night.values)), Theme(true, Tidy(p.day.values)), p.window))
               && (q == Some(p) <==> IsTidy(p.night.values) && IsTidy(p.day.values))
  {
    var p := ParsePair(b, f).value;
    assert p.night == Night(b, f) && p.day == Day(b, f) && p.window == Window(f.dayStart, f.dayEnd);
    assert !p.night.isDay && p.day.isDay;
    var v := Loaded(n, p.night.values, p.day.values, p.window);
    assert v.dayStart == MinutesToHhmm(p.window.0) && v.dayEnd == MinutesToHhmm(p.window.1);
    hide *;
    VariantsAgree(b, f);
    WindowReadsBack(f.dayStart, f.dayEnd);
    TidyIff(p.night.values);
    TidyIff(p.day.values);
    LoadThenBuild(n, p.night.values, p.day.values, p.window);
    LoadedKeys(n, p.night.values, p.day.values, p.window);
    SavePreservesMeaning(b, n, v);
  }

  lemma LoadedKeys(n: Numbers, night: Values, day: Values, window: (nat, nat))
    ensures var v := Loaded(n, night, day, window); v.shared.Keys + v.night.Keys == night.Keys
  {
  }

  /** Every text present is trimmed and not blank. */
  predicate IsTidy(values: Values) {
    forall k :: k in values && values[k].Words? && values[k].text.Some? ==>
                  values[k].text.value != "" && Trim(values[k].text.value) == values[k].text.value
  }

  lemma TidyIff(values: Values)
    ensures Tidy(values) == values <==> IsTidy(values)
    ensures IsTidy(Tidy(values))
  {
    forall s: string
      ensures Trim(Trim(s)) == Trim(s)
    {
      TrimmedEnds(s);
    }
    hide Trim;
    if IsTidy(values) {
      assert forall k :: k in values ==> Tidied(values[k]) == values[k];
    } else {
      var k :| k in values && values[k].Words? && values[k].text.Some? &&
               !(values[k].text.value != "" && Trim(values[k].text.value) == values[k].text.value);
      assert Tidy(values)[k] != values[k];
    }
  }
}
