/**
 * One row of the settings menu (`GlobedSettingCell`): it edits a setting it
 * borrows through an untyped pointer, whose type is fixed by the row's tag,
 * and persists the settings after every successful edit.
 */
module SettingCell {
  import opened Wrappers

  /** A C++ `int`. */
  type Int32 = i: int | -0x8000_0000 <= i < 0x8000_0000

  /** The row's tag (`GlobedSettingCell::Type`). */
  datatype Type = Bool | Float | String | AudioDevice | Int

  /** The C++ types involved: those a slot can hold, and `std::string_view`. */
  datatype Kind = BoolKind | FloatKind | StringKind | StringViewKind | IntKind

  /** The value the borrowed pointer points at; `float` is read as a real number. */
  datatype Value = BoolValue(b: bool) | FloatValue(f: real) | StringValue(s: string) | IntValue(i: Int32)

  /** A `std::any`: a value together with its dynamic type. */
  datatype Any =
    | AnyBool(b: bool)
    | AnyFloat(f: real)
    | AnyString(s: string)
    | AnyStringView(view: string)
    | AnyInt(i: Int32)

  /** The bounds of a `Float` row's slider. */
  datatype Limits = Limits(floatMin: real, floatMax: real)

  /** How a `storeAndSave` ends: stored and saved, or `std::bad_any_cast` thrown. */
  datatype Outcome = Saved | BadAnyCast

  /** The popups the interactive button opens. */
  datatype Popup = PermissionPrompt | AudioSetup | StringInput

  function ValueKind(v: Value): Kind
  {
    match v
    case BoolValue(_) => BoolKind
    case FloatValue(_) => FloatKind
    case StringValue(_) => StringKind
    case IntValue(_) => IntKind
  }

  function AnyKind(a: Any): Kind
  {
    match a
    case AnyBool(_) => BoolKind
    case AnyFloat(_) => FloatKind
    case AnyString(_) => StringKind
    case AnyStringView(_) => StringViewKind
    case AnyInt(_) => IntKind
  }

  /** The `std::any` built from a stored value. */
  function Box(v: Value): (a: Any)
    ensures AnyKind(a) == ValueKind(v)
  {
    match v
    case BoolValue(b) => AnyBool(b)
    case FloatValue(f) => AnyFloat(f)
    case StringValue(s) => AnyString(s)
    case IntValue(i) => AnyInt(i)
  }

  /**
   * The type a row of tag `t` stores. An `AudioDevice` row stores an `int`,
   * like an `Int` row, and no row stores a `std::string_view`.
   */
  function StorageKind(t: Type): (k: Kind)
    ensures k != StringViewKind
    ensures k == IntKind <==> t == AudioDevice || t == Int
    ensures k == BoolKind <==> t == Bool
    ensures k == FloatKind <==> t == Float
    ensures k == StringKind <==> t == String
  {
    match t
    case Bool => BoolKind
    case Float => FloatKind
    case String => StringKind
    case AudioDevice => IntKind
    case Int => IntKind
  }

  /**
   * `std::any_cast` to the type the tag selects: it succeeds exactly when the
   * `any` holds that type, and then gives back the value it was built from.
   */
  function Cast(t: Type, a: Any): (r: Option<Value>)
    ensures r.Some? <==> AnyKind(a) == StorageKind(t)
    ensures r.Some? ==> ValueKind(r.value) == StorageKind(t) && Box(r.value) == a
  {
    match a
    case AnyBool(b) => if t == Bool then Some(BoolValue(b)) else None
    case AnyFloat(f) => if t == Float then Some(FloatValue(f)) else None
    case AnyString(s) => if t == String then Some(StringValue(s)) else None
    case AnyStringView(_) => None
    case AnyInt(i) => if t == AudioDevice || t == Int then Some(IntValue(i)) else None
  }

  /** Casting an `any` built from a value of the row's type gives the value back. */
  lemma CastBox(t: Type, v: Value)
    requires ValueKind(v) == StorageKind(t)
    ensures Cast(t, Box(v)) == Some(v)
  {
    match v
    case BoolValue(_) =>
    case FloatValue(_) =>
    case StringValue(_) =>
    case IntValue(_) =>
  }

  /** A `std::string_view` can be stored by no row, whatever its tag. */
  lemma StringViewNeverStored(t: Type, text: string)
    ensures Cast(t, AnyStringView(text)) == None
  {
  }

  // ---------------------------------------------------------------------------
  // The slider's arithmetic
  // ---------------------------------------------------------------------------

  /** The value a slider at relative position `p` stores. */
  function SliderValue(p: real, limits: Limits): (v: real)
    ensures p == 0.0 ==> v == limits.floatMin
    ensures p == 1.0 ==> v == limits.floatMax
    ensures v - limits.floatMin == (limits.floatMax - limits.floatMin) * p
  {
    limits.floatMin + (limits.floatMax - limits.floatMin) * p
  }

  /** For a position in `[0, 1]`, the stored value lies between the limits. */
  lemma SliderValueBounds(p: real, limits: Limits)
    requires 0.0 <= p <= 1.0 && limits.floatMin <= limits.floatMax
    ensures limits.floatMin <= SliderValue(p, limits) <= limits.floatMax
  {
    var w := limits.floatMax - limits.floatMin;
    ScaledBetween(w, p);
    assert SliderValue(p, limits) == limits.floatMin + w * p;
  }

  /** A fraction of a non-negative width lies between zero and the width. */
  lemma ScaledBetween(w: real, p: real)
    requires 0.0 <= w && 0.0 <= p <= 1.0
    ensures 0.0 <= w * p <= w
  {
    assert w - w * p == w * (1.0 - p);
    NonNegativeProduct(w, p);
    NonNegativeProduct(w, 1.0 - p);
  }

  lemma NonNegativeProduct(x: real, y: real)
    requires 0.0 <= x && 0.0 <= y
    ensures 0.0 <= x * y
  {
  }

  /** The position a slider is put at for a stored value, as the row computes it on creation. */
  function SliderPosition(v: real, limits: Limits): (p: real)
    requires limits.floatMax != limits.floatMin
    ensures p * (limits.floatMax - limits.floatMin) == v
  {
    v / (limits.floatMax - limits.floatMin)
  }

  /**
   * Storing from position `p` and creating the row again puts the slider
   * back at `p` exactly when the lower limit is zero.
   */
  lemma SliderRoundTripIff(p: real, limits: Limits)
    requires limits.floatMax != limits.floatMin
    ensures SliderPosition(SliderValue(p, limits), limits) == p <==> limits.floatMin == 0.0
  {
    var w := limits.floatMax - limits.floatMin;
    var q := SliderPosition(SliderValue(p, limits), limits);
    assert q * w == limits.floatMin + w * p;
    assert (q - p) * w == limits.floatMin;
    if q == p {
      assert (q - p) * w == 0.0;
    } else {
      assert q - p != 0.0 && w != 0.0;
      MulNonZero(q - p, w);
    }
  }

  lemma MulNonZero(x: real, y: real)
    requires x != 0.0 && y != 0.0
    ensures x * y != 0.0
  {
  }

  /** With limits 20 and 120, the middle position stores 70, which reopens at 0.7. */
  lemma SliderRoundTripCounterexample()
    ensures SliderValue(0.5, Limits(20.0, 120.0)) == 70.0
    ensures SliderPosition(70.0, Limits(20.0, 120.0)) == 0.7
  {
  }

  /** The inverse of `SliderValue`: the position measured from the lower limit. */
  function SliderPositionFromMin(v: real, limits: Limits): (p: real)
    requires limits.floatMax != limits.floatMin
    ensures SliderValue(p, limits) == v
  {
    (v - limits.floatMin) / (limits.floatMax - limits.floatMin)
  }

  /** Measured from the lower limit, storing and reopening keeps every position. */
  lemma SliderRoundTrip(p: real, limits: Limits)
    requires limits.floatMax != limits.floatMin
    ensures SliderPositionFromMin(SliderValue(p, limits), limits) == p
  {
    var w := limits.floatMax - limits.floatMin;
    var q := SliderPositionFromMin(SliderValue(p, limits), limits);
    assert w * q == w * p;
    assert w * (q - p) == 0.0;
    if q != p { MulNonZero(w, q - p); }
  }

  // ---------------------------------------------------------------------------
  // `std::to_string` for an `int`
  // ---------------------------------------------------------------------------

  function DigitChar(d: nat): (c: char)
    requires d < 10
    ensures '0' <= c <= '9' && (c as int) - ('0' as int) == d
  {
    (('0' as int) + d) as char
  }

  predicate IsDigits(s: string)
  {
    forall i :: 0 <= i < |s| ==> '0' <= s[i] <= '9'
  }

  /** The decimal digits of `n`, with no leading zero. */
  function Digits(n: nat): (s: string)
    ensures |s| >= 1 && IsDigits(s) && (|s| > 1 ==> s[0] != '0')
    decreases n
  {
    if n < 10 then [DigitChar(n)] else Digits(n / 10) + [DigitChar(n % 10)]
  }

  /** The number a string of decimal digits denotes. */
  function DigitsValue(s: string): nat
    requires IsDigits(s)
    decreases |s|
  {
    if s == [] then 0
    else DigitsValue(s[..|s| - 1]) * 10 + ((s[|s| - 1] as int) - ('0' as int))
  }

  /** `std::to_string`: an optional minus sign, then the digits of the magnitude. */
  function DecimalString(i: int): (s: string)
    ensures |s| >= 1
    ensures s[0] == '-' <==> i < 0
    ensures i < 0 ==> IsDigits(s[1..]) && |s| >= 2
    ensures i >= 0 ==> IsDigits(s)
  {
    if i < 0 then "-" + Digits(-i) else Digits(i)
  }

  /** The number a decimal string denotes. */
  function DecimalValue(s: string): int
    requires |s| >= 1
    requires s[0] == '-' ==> IsDigits(s[1..])
    requires s[0] != '-' ==> IsDigits(s)
  {
    if s[0] == '-' then -(DigitsValue(s[1..]) as int) else DigitsValue(s)
  }

  lemma {:induction false} DigitsRoundTrip(n: nat)
    ensures DigitsValue(Digits(n)) == n
    decreases n
  {
    if n >= 10 {
      DigitsRoundTrip(n / 10);
      var s := Digits(n);
      assert s[..|s| - 1] == Digits(n / 10);
    }
  }

  /** The text an `Int` row's field shows denotes the stored number. */
  lemma DecimalRoundTrip(i: int)
    ensures DecimalValue(DecimalString(i)) == i
  {
    if i < 0 {
      DigitsRoundTrip(-i);
      assert DecimalString(i)[1..] == Digits(-i);
    } else {
      DigitsRoundTrip(i);
    }
  }

  // ---------------------------------------------------------------------------
  // The state: the borrowed setting, the settings store, the row
  // ---------------------------------------------------------------------------

  /** The setting a row borrows (`void* settingStorage`). */
  class Slot {
    var value: Value

    constructor(value: Value)
      ensures this.value == value
    {
      this.value := value;
    }
  }

  /** `GlobedSettings`: every save persists the settings; the borrowed setting's value at each save is recorded. */
  class SettingsStore {
    var saved: seq<Value>

    constructor()
      ensures saved == []
    {
      saved := [];
    }

    /** `GlobedSettings::save`. */
    method Save(current: Value)
      modifies this
      ensures saved == old(saved) + [current]
    {
      saved := saved + [current];
    }
  }

  class Cell {
    const slot: Slot
    const settings: SettingsStore
    const settingType: Type
    const limits: Limits
    /** The checkbox's state (`Bool` rows). */
    var checkboxOn: bool
    /** The slider's relative position (`Float` rows). */
    var sliderPos: real
    /** The input field's text (`Int` rows). */
    var fieldText: string

    /** The borrowed setting holds the type the tag selects. */
    predicate Valid()
      reads this, slot
    {
      ValueKind(slot.value) == StorageKind(settingType)
    }

    /** A `Bool` row's checkbox shows the stored value. */
    predicate ShowsStoredValue()
      reads this, slot
    {
      settingType == Bool && slot.value.BoolValue? && checkboxOn == slot.value.b
    }

    /**
     * `GlobedSettingCell::init`, the parts that read the borrowed setting: the
     * checkbox is set to the stored bool, the slider to the stored float
     * divided by the width of the limits, the field to the stored int in
     * decimal.
     */
    constructor(slot: Slot, settings: SettingsStore, settingType: Type, limits: Limits)
      requires ValueKind(slot.value) == StorageKind(settingType)
      requires settingType == Float ==> limits.floatMax != limits.floatMin
      ensures this.slot == slot && this.settings == settings
      ensures this.settingType == settingType && this.limits == limits
      ensures Valid()
      ensures settingType == Bool ==> ShowsStoredValue()
      ensures settingType == Float ==> sliderPos == SliderPosition(slot.value.f, limits)
      ensures settingType == Int ==> fieldText == DecimalString(slot.value.i)
    {
      this.slot := slot;
      this.settings := settings;
      this.settingType := settingType;
      this.limits := limits;
      checkboxOn := false;
      sliderPos := 0.0;
      fieldText := "";
      new;
      match settingType {
        case Bool => checkboxOn := slot.value.b;
        case Float => sliderPos := SliderPosition(slot.value.f, limits);
        case String =>
        case AudioDevice =>
        case Int => fieldText := DecimalString(slot.value.i);
      }
    }

    /**
     * `GlobedSettingCell::storeAndSave`: casts `value` to the type the tag
     * selects, writes it to the borrowed setting and saves; a failed cast
     * throws before the write and the save.
     */
    method StoreAndSave(value: Any) returns (outcome: Outcome)
      requires Valid()
      modifies slot, settings
      ensures Valid()
      ensures outcome == Saved <==> AnyKind(value) == StorageKind(settingType)
      ensures outcome == Saved ==> Cast(settingType, value) == Some(slot.value)
      ensures outcome == Saved ==> settings.saved == old(settings.saved) + [slot.value]
      ensures outcome == BadAnyCast ==> slot.value == old(slot.value) && settings.saved == old(settings.saved)
    {
      match settingType {
        case Bool =>
          if !value.AnyBool? { return BadAnyCast; }
          slot.value := BoolValue(value.b);
        case Float =>
          if !value.AnyFloat? { return BadAnyCast; }
          slot.value := FloatValue(value.f);
        case String =>
          if !value.AnyString? { return BadAnyCast; }
          slot.value := StringValue(value.s);
        case AudioDevice | Int =>
          if !value.AnyInt? { return BadAnyCast; }
          slot.value := IntValue(value.i);
      }
      settings.Save(slot.value);
      outcome := Saved;
    }

    /** `GlobedSettingCell::onCheckboxToggled`: stores the negation of the checkbox's state. */
    method OnCheckboxToggled() returns (outcome: Outcome)
      requires Valid() && settingType == Bool
      modifies slot, settings
      ensures outcome == Saved && Valid()
      ensures slot.value == BoolValue(!checkboxOn)
      ensures settings.saved == old(settings.saved) + [slot.value]
    {
      outcome := StoreAndSave(AnyBool(!checkboxOn));
    }

    /**
     * A click on the checkbox: the toggler runs its callback, then flips its
     * own state. The setting flips, one save happens, and the checkbox keeps
     * showing the stored value.
     */
    method ClickCheckbox()
      requires Valid() && ShowsStoredValue()
      modifies this, slot, settings
      ensures Valid() && ShowsStoredValue()
      ensures sliderPos == old(sliderPos) && fieldText == old(fieldText)
      ensures slot.value == BoolValue(!old(slot.value.b))
      ensures settings.saved == old(settings.saved) + [slot.value]
    {
      var _ := OnCheckboxToggled();
      checkboxOn := !checkboxOn;
    }

    /** Two clicks restore the setting, with two saves. */
    method ClickCheckboxTwice()
      requires Valid() && ShowsStoredValue()
      modifies this, slot, settings
      ensures Valid() && ShowsStoredValue()
      ensures sliderPos == old(sliderPos) && fieldText == old(fieldText)
      ensures slot.value == old(slot.value)
      ensures settings.saved == old(settings.saved) + [BoolValue(!old(slot.value.b)), old(slot.value)]
    {
      ClickCheckbox();
      ClickCheckbox();
    }

    /** `GlobedSettingCell::onSliderChanged`: stores the value the slider's position stands for. */
    method OnSliderChanged() returns (outcome: Outcome)
      requires Valid() && settingType == Float
      modifies slot, settings
      ensures outcome == Saved && Valid()
      ensures slot.value == FloatValue(SliderValue(sliderPos, limits))
      ensures settings.saved == old(settings.saved) + [slot.value]
    {
      var relativeValue := sliderPos;
      var value := limits.floatMin + (limits.floatMax - limits.floatMin) * relativeValue;
      outcome := StoreAndSave(AnyFloat(value));
    }

    /** The user drags the slider's thumb to `p`, which runs the callback. */
    method DragSlider(p: real)
      requires Valid() && settingType == Float
      modifies this, slot, settings
      ensures Valid() && sliderPos == p
      ensures checkboxOn == old(checkboxOn) && fieldText == old(fieldText)
      ensures slot.value == FloatValue(SliderValue(p, limits))
      ensures settings.saved == old(settings.saved) + [slot.value]
    {
      sliderPos := p;
      var _ := OnSliderChanged();
    }

    /**
     * `GlobedSettingCell::onStringChanged`: the text reaches `storeAndSave`
     * as a `std::string_view`, which no row can store, so the cast always
     * fails and nothing is written or saved.
     */
    method OnStringChanged(text: string) returns (outcome: Outcome)
      requires Valid()
      modifies slot, settings
      ensures outcome == BadAnyCast
      ensures slot.value == old(slot.value) && settings.saved == old(settings.saved)
    {
      outcome := StoreAndSave(AnyStringView(text));
    }

    /**
     * The string callback as it is evidently meant to work: the text is
     * converted to a `std::string` first, so a `String` row stores it and saves.
     */
    method OnStringCommitted(text: string) returns (outcome: Outcome)
      requires Valid()
      modifies slot, settings
      ensures Valid()
      ensures outcome == Saved <==> settingType == String
      ensures settingType == String ==> slot.value == StringValue(text)
      ensures settingType == String ==> settings.saved == old(settings.saved) + [StringValue(text)]
      ensures settingType != String ==> slot.value == old(slot.value) && settings.saved == old(settings.saved)
    {
      outcome := StoreAndSave(AnyString(text));
    }

    /**
     * `GlobedSettingCell::onInteractiveButton`. An `AudioDevice` row opens the
     * audio setup, asking for the microphone permission first when it is
     * missing (nothing at all in a build without voice support); any other
     * row opens a text prompt whose submitted text goes to `OnStringChanged`.
     * The outcomes of the permission check, the prompt buttons, the
     * permission request and the text prompt are parameters.
     */
    method OnInteractiveButton(voiceSupport: bool, hasPermission: bool, grantPressed: bool,
                               granted: bool, submitted: Option<string>)
      returns (shown: seq<Popup>, outcome: Option<Outcome>)
      requires Valid()
      modifies slot, settings
      ensures Valid()
      ensures slot.value == old(slot.value) && settings.saved == old(settings.saved)
      ensures settingType == AudioDevice ==> outcome == None
      ensures settingType == AudioDevice && !voiceSupport ==> shown == []
      ensures settingType == AudioDevice && voiceSupport && hasPermission ==> shown == [AudioSetup]
      ensures settingType == AudioDevice && voiceSupport && !hasPermission ==>
                shown == [PermissionPrompt] + (if grantPressed && granted then [AudioSetup] else [])
      ensures settingType != AudioDevice ==> shown == [StringInput]
      ensures settingType != AudioDevice ==> outcome == (if submitted.Some? then Some(BadAnyCast) else None)
    {
      outcome := None;
      if settingType == AudioDevice {
        if !voiceSupport {
          shown := [];
        } else if !hasPermission {
          shown := [PermissionPrompt];
          if grantPressed && granted {
            shown := shown + [AudioSetup];
          }
        } else {
          shown := [AudioSetup];
        }
      } else {
        shown := [StringInput];
        if submitted.Some? {
          var o := OnStringChanged(submitted.value);
          outcome := Some(o);
        }
      }
    }
  }
}
