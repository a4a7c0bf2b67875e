/**
 The configuration side of the alert builder: every public builder operation
 as a pure transformation of the configuration map. Publishing the result to
 the session is the business of FlashStore and Notifier.
 */
module AlertConfig {
  import opened Values

  // Icon names of the four typed alerts.
  const IconWarning := "warning"
  const IconError := "error"
  const IconSuccess := "success"
  const IconInfo := "info"

  /** Auto-close delay used when the application configures none. */
  const TimerMilliseconds := 1800

  // Option names the builder writes.
  const TextKey := "text"
  const TitleKey := "title"
  const TypeKey := "type"
  const TimerKey := "timer"
  const ShowConfirmKey := "showConfirmButton"
  const ConfirmTextKey := "confirmButtonText"
  const ShowCancelKey := "showCancelButton"
  const CancelTextKey := "cancelButtonText"
  const AllowOutsideClickKey := "allowOutsideClick"
  const HtmlKey := "html"

  /** Every option name some builder operation other than setConfig can write. */
  const RecognizedKeys: set<string> :=
    {TextKey, TitleKey, TypeKey, TimerKey, ShowConfirmKey, ConfirmTextKey,
     ShowCancelKey, CancelTextKey, AllowOutsideClickKey, HtmlKey}

  // Default arguments of the public operations.
  const DefaultText := Str("")
  const DefaultTitle := Str("")
  const DefaultAllowOutsideClick := Bool(true)
  const DefaultConfirmLabel := Str("OK")
  const DefaultCancelLabel := Str("Cancel")
  const DefaultButtonKind := Str("confirm")

  /** What `getConfig` returns: the whole map, or a single value. */
  datatype Reading = Whole(config: Config) | Single(value: Value)

  /** The configuration of a fresh builder. `autoclose` is the application's
      `sweet-alert.autoclose` setting: None when it is not set at all, in which
      case the builder falls back to TimerMilliseconds. */
  function DefaultConfig(autoclose: Option<Value>): (c: Config)
    ensures c.Keys == {TimerKey, TextKey, ShowConfirmKey, ShowCancelKey}
    ensures autoclose.None? ==> c[TimerKey] == Int(TimerMilliseconds)
    ensures autoclose.Some? ==> c[TimerKey] == autoclose.value
    ensures c[TextKey] == Str("")
    ensures c[ShowConfirmKey] == Bool(false) && c[ShowCancelKey] == Bool(false)
  {
    var timer := match autoclose
      case None => Int(TimerMilliseconds)
      case Some(v) => v;
    map[TimerKey := timer, TextKey := Str(""),
        ShowConfirmKey := Bool(false), ShowCancelKey := Bool(false)]
  }

  /** `message(text, title, icon)`: always writes the text; writes the title
      and the icon only when they are not null, so a null keeps the earlier one. */
  function Message(c: Config, text: Value, title: Value, icon: Value): (r: Config)
    ensures TextKey in r && r[TextKey] == text
    ensures title != Null ==> TitleKey in r && r[TitleKey] == title
    ensures title == Null ==> SameOn(c, r, TitleKey)
    ensures icon != Null ==> TypeKey in r && r[TypeKey] == icon
    ensures icon == Null ==> SameOn(c, r, TypeKey)
    ensures AgreeOutside(c, r, {TextKey, TitleKey, TypeKey})
  {
    var withText := c[TextKey := text];
    var withTitle := if title != Null then withText[TitleKey := title] else withText;
    if icon != Null then withTitle[TypeKey := icon] else withTitle
  }

  /** `basic(text, title)`: a message without an icon, so any earlier icon stays. */
  function Basic(c: Config, text: Value, title: Value): (r: Config)
    ensures TextKey in r && r[TextKey] == text
    ensures title != Null ==> TitleKey in r && r[TitleKey] == title
    ensures SameOn(c, r, TypeKey)
    ensures AgreeOutside(c, r, {TextKey, TitleKey})
  {
    Message(c, text, title, Null)
  }

  /** What a typed message (info, success, error, warning) guarantees. */
  predicate TypedMessage(c: Config, r: Config, text: Value, title: Value, icon: string)
  {
    && TextKey in r && r[TextKey] == text
    && TypeKey in r && r[TypeKey] == Str(icon)
    && (title != Null ==> TitleKey in r && r[TitleKey] == title)
    && (title == Null ==> SameOn(c, r, TitleKey))
    && AgreeOutside(c, r, {TextKey, TitleKey, TypeKey})
  }

  /** `info(text, title)`. */
  function Info(c: Config, text: Value, title: Value): (r: Config)
    ensures TypedMessage(c, r, text, title, IconInfo)
  {
    Message(c, text, title, Str(IconInfo))
  }

  /** `success(text, title)`. */
  function Success(c: Config, text: Value, title: Value): (r: Config)
    ensures TypedMessage(c, r, text, title, IconSuccess)
  {
    Message(c, text, title, Str(IconSuccess))
  }

  /** `error(text, title)`. */
  function Error(c: Config, text: Value, title: Value): (r: Config)
    ensures TypedMessage(c, r, text, title, IconError)
  {
    Message(c, text, title, Str(IconError))
  }

  /** `warning(text, title)`. */
  function Warning(c: Config, text: Value, title: Value): (r: Config)
    ensures TypedMessage(c, r, text, title, IconWarning)
  {
    Message(c, text, title, Str(IconWarning))
  }

  /** `autoClose(milliseconds)`: a null argument changes nothing, anything else
      becomes the timer. */
  function AutoClose(c: Config, milliseconds: Value): (r: Config)
    ensures milliseconds == Null ==> r == c
    ensures milliseconds != Null ==> TimerKey in r && r[TimerKey] == milliseconds
    ensures AgreeOutside(c, r, {TimerKey})
  {
    if milliseconds != Null then c[TimerKey := milliseconds] else c
  }

  /** `removeTimer()`: drops the timer entry if there is one. */
  function RemoveTimer(c: Config): (r: Config)
    ensures r.Keys == c.Keys - {TimerKey}
    ensures AgreeOutside(c, r, {TimerKey})
    ensures TimerKey !in c ==> r == c
  {
    if TimerKey in c then c - {TimerKey} else c
  }

  /** What adding a button guarantees: the button is shown with its label, a
      click outside no longer closes the alert, and there is no timer. */
  predicate ButtonAdded(c: Config, r: Config, showKey: string, textKey: string, buttonText: Value)
  {
    && showKey in r && r[showKey] == Bool(true)
    && textKey in r && r[textKey] == buttonText
    && AllowOutsideClickKey in r && r[AllowOutsideClickKey] == Bool(false)
    && TimerKey !in r
    && AgreeOutside(c, r, {showKey, textKey, AllowOutsideClickKey, TimerKey})
  }

  /** `confirmButton(buttonText)`. */
  function ConfirmButton(c: Config, buttonText: Value): (r: Config)
    ensures ButtonAdded(c, r, ShowConfirmKey, ConfirmTextKey, buttonText)
  {
    var shown := c[ShowConfirmKey := Bool(true)][ConfirmTextKey := buttonText];
    RemoveTimer(shown[AllowOutsideClickKey := Bool(false)])
  }

  /** `cancelButton(buttonText)`. */
  function CancelButton(c: Config, buttonText: Value): (r: Config)
    ensures ButtonAdded(c, r, ShowCancelKey, CancelTextKey, buttonText)
  {
    var shown := c[ShowCancelKey := Bool(true)][CancelTextKey := buttonText];
    RemoveTimer(shown[AllowOutsideClickKey := Bool(false)])
  }

  /** Whether `kind == 'cancel'` holds under PHP 8's loose comparison, which is
      what the `switch` of addButton uses: a string equals 'cancel' only when it
      is that string, `true` equals every non-empty string, and neither an
      integer nor null equals a non-numeric string. */
  predicate LooselyCancel(kind: Value)
  {
    match kind
    case Str(s) => s == "cancel"
    case Bool(b) => b
    case Int(_) => false
    case Null => false
  }

  /** `addButton(buttonText, kind)`: a cancel button when the kind loosely equals
      'cancel', a confirm button for every other kind. */
  function AddButton(c: Config, buttonText: Value, kind: Value): (r: Config)
    ensures LooselyCancel(kind) ==> ButtonAdded(c, r, ShowCancelKey, CancelTextKey, buttonText)
    ensures !LooselyCancel(kind) ==> ButtonAdded(c, r, ShowConfirmKey, ConfirmTextKey, buttonText)
  {
    var shown :=
      if LooselyCancel(kind) then c[ShowCancelKey := Bool(true)][CancelTextKey := buttonText]
      else c[ShowConfirmKey := Bool(true)][ConfirmTextKey := buttonText];
    RemoveTimer(shown[AllowOutsideClickKey := Bool(false)])
  }

  /** `allowOutsideClick(value)`: sets that one flag, whatever buttons exist. */
  function AllowOutsideClick(c: Config, value: Value): (r: Config)
    ensures AllowOutsideClickKey in r && r[AllowOutsideClickKey] == value
    ensures AgreeOutside(c, r, {AllowOutsideClickKey})
  {
    c[AllowOutsideClickKey := value]
  }

  /** `persistent(buttonText)`: the alert stays until confirmed. */
  function Persistent(c: Config, buttonText: Value): (r: Config)
    ensures ButtonAdded(c, r, ShowConfirmKey, ConfirmTextKey, buttonText)
  {
    ConfirmButton(c, buttonText)
  }

  /** `html()`: the text becomes the html content and the text entry goes.
      `html()` reads the text entry unguarded; with PHP warnings not turned
      into exceptions, a missing text makes the html content null. */
  function Html(c: Config): (r: Config)
    ensures HtmlKey in r && TextKey !in r
    ensures TextKey in c ==> r[HtmlKey] == c[TextKey]
    ensures TextKey !in c ==> r[HtmlKey] == Null
    ensures AgreeOutside(c, r, {TextKey, HtmlKey})
  {
    var text := if TextKey in c then c[TextKey] else Null;
    c[HtmlKey := text] - {TextKey}
  }

  /** `setConfig(partial)`: PHP's array_merge on string keys, so the entries of
      `partial` win and every other entry stays. */
  function SetConfig(c: Config, partial: Config): (r: Config)
    ensures r.Keys == c.Keys + partial.Keys
    ensures forall k :: k in partial ==> r[k] == partial[k]
    ensures forall k :: k in c && k !in partial ==> r[k] == c[k]
  {
    c + partial
  }

  /** `getConfig(key)`: the whole configuration when no key is given, otherwise
      the stored value, or null when the key is absent. */
  function GetConfig(c: Config, key: Option<string>): (r: Reading)
    ensures key.None? ==> r == Whole(c)
    ensures key.Some? && key.value in c ==> r == Single(c[key.value])
    ensures key.Some? && key.value !in c ==> r == Single(Null)
  {
    match key
    case None => Whole(c)
    case Some(k) => Single(if k in c then c[k] else Null)
  }
}
