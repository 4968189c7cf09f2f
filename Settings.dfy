/** The print settings record of types.ts, the factory defaults of App.tsx,
    and the settings store. The browser's key-value storage is modelled as a
    map from keys to settings records; serialisation is not modelled. */
module Settings {

  datatype Orientation = Horizontal | Vertical

  /** `PrintSettings`: all lengths are in pixels; the offset is signed. */
  datatype PrintSettings = PrintSettings(
    fontSize: int,
    letterSpacing: int,
    orientation: Orientation,
    marginHorizontal: int,
    verticalOffset: int,
    canvasHeight: int)

  /** `DEFAULT_SETTINGS`. */
  const DefaultSettings: PrintSettings := PrintSettings(52, 3, Horizontal, 15, 0, 80)

  /** The one key under which the settings are stored. */
  const StorageKey: string := "furlong_print_settings"

  type Store = map<string, PrintSettings>

  /** The initial state of `settings`: the stored record if there is one,
      otherwise the defaults. */
  function LoadSettings(store: Store): PrintSettings {
    if StorageKey in store then store[StorageKey] else DefaultSettings
  }

  /** `localStorage.setItem` under the settings key. */
  function StoreSettings(store: Store, s: PrintSettings): (r: Store)
    ensures r.Keys == store.Keys + {StorageKey}
    ensures forall k :: k in store && k != StorageKey ==> r[k] == store[k]
  {
    store[StorageKey := s]
  }

  /** Loading what was just stored gives it back, whatever was there before. */
  lemma LoadAfterStore(store: Store, s: PrintSettings)
    ensures LoadSettings(StoreSettings(store, s)) == s
  {
  }

  /** With nothing stored, loading gives the factory defaults listed in App.tsx. */
  lemma LoadFromEmptyStore(store: Store)
    requires StorageKey !in store
    ensures LoadSettings(store) == DefaultSettings
    ensures LoadSettings(store) == PrintSettings(52, 3, Horizontal, 15, 0, 80)
  {
  }

  /** The four fields that the settings panel edits with a range slider. */
  datatype Slider = FontSize | LetterSpacing | MarginHorizontal | VerticalOffset

  function SliderValue(s: PrintSettings, f: Slider): int {
    match f
    case FontSize => s.fontSize
    case LetterSpacing => s.letterSpacing
    case MarginHorizontal => s.marginHorizontal
    case VerticalOffset => s.verticalOffset
  }

  /** The `min` and `max` of each slider. */
  function SliderMin(f: Slider): int {
    match f
    case FontSize => 20
    case LetterSpacing => 0
    case MarginHorizontal => 0
    case VerticalOffset => -50
  }

  function SliderMax(f: Slider): int {
    match f
    case FontSize => 100
    case LetterSpacing => 30
    case MarginHorizontal => 150
    case VerticalOffset => 50
  }

  /** `{...settings, [key]: value}` for a slider: the named field takes the new
      value and the other five fields are untouched. */
  function WithSlider(s: PrintSettings, f: Slider, value: int): (r: PrintSettings)
    ensures SliderValue(r, f) == value
    ensures forall g :: g != f ==> SliderValue(r, g) == SliderValue(s, g)
    ensures r.orientation == s.orientation && r.canvasHeight == s.canvasHeight
  {
    match f
    case FontSize => s.(fontSize := value)
    case LetterSpacing => s.(letterSpacing := value)
    case MarginHorizontal => s.(marginHorizontal := value)
    case VerticalOffset => s.(verticalOffset := value)
  }

  /** `{...settings, orientation: o}`: only the orientation changes. */
  function WithOrientation(s: PrintSettings, o: Orientation): (r: PrintSettings)
    ensures r.orientation == o
    ensures forall g :: SliderValue(r, g) == SliderValue(s, g)
    ensures r.canvasHeight == s.canvasHeight
  {
    s.(orientation := o)
  }

  /** Every slider field lies within its slider's range. */
  predicate WithinSliderRanges(s: PrintSettings) {
    forall f :: SliderMin(f) <= SliderValue(s, f) <= SliderMax(f)
  }

  /** The defaults lie within the slider ranges. */
  lemma DefaultsWithinSliderRanges()
    ensures WithinSliderRanges(DefaultSettings)
  {
    forall f ensures SliderMin(f) <= SliderValue(DefaultSettings, f) <= SliderMax(f) {
      match f
      case FontSize =>
      case LetterSpacing =>
      case MarginHorizontal =>
      case VerticalOffset =>
    }
  }

  /** A slider can only produce values inside its range, so slider and
      orientation edits keep a record within the ranges. */
  lemma EditsKeepSliderRanges(s: PrintSettings, f: Slider, value: int, o: Orientation)
    requires WithinSliderRanges(s)
    requires SliderMin(f) <= value <= SliderMax(f)
    ensures WithinSliderRanges(WithSlider(s, f, value))
    ensures WithinSliderRanges(WithOrientation(s, o))
  {
    var r := WithSlider(s, f, value);
    forall g ensures SliderMin(g) <= SliderValue(r, g) <= SliderMax(g) {
      if g != f {
        assert SliderValue(r, g) == SliderValue(s, g);
      }
    }
  }
}
