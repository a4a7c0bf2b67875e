# SweetAlert notifier: a Dafny model

This project models `SweetAlertNotifier`, the alert builder of the sweet-alert
Laravel package. The builder collects the options of a one-shot browser alert
(text, title, icon, buttons, auto-close timer) in a string-keyed map. After
every mutating call it flashes that map into the session. Each entry goes under
`sweet_alert.<key>`. The whole map, serialised as JSON, goes under
`sweet_alert.alert`.

The model is functional:

- `Values`: a configuration value is `Str | Int | Bool | Null`, because PHP
  values are heterogeneous. A configuration is `map<string, Value>`.
- `AlertConfig`: each public builder operation as a pure `Config -> Config`
  function. Its contract gives the entries it writes and says that no other
  entry changes (`AgreeOutside`).
- `AlertConfigProperties`: which operations are aliases of which, the button
  and timer rules, the limits of those rules, and what `getConfig` can tell
  apart.
- `FlashStore`: the session flash. The builder only writes store keys of the
  form `sweet_alert.<name>`. The session is therefore modelled by that
  namespace alone: the entry `k` stands for the store key `sweet_alert.k`, and
  `SessionKeyInjective` shows that no two names share a store key. `Flash` is
  the declarative result. `FlashConfig` is the `foreach` of `flashConfig()`.
  `FlashedFromIsFlash` shows that the loop's result is exactly `Flash`.
- `SweetAlertNotifier`: the builder state (configuration plus session), one
  `Step` per call (transform, then flash), and `Run` for a sequence of chained
  calls, with lemmas over whole runs.

The JSON serialiser (`json_encode`) is a parameter `json: Config -> string`, so
its format is left uninterpreted.

Points where the code behaves in a way a reader might not expect:

- `getConfig(k)` for an absent key falls off the end of the PHP function and
  returns `null`. It therefore cannot be told apart from a stored null
  (`GetConfigAbsentLooksNull`).
- `html()` reads the `text` entry without checking that it exists. When PHP
  warnings are not turned into exceptions, a second call sets `html` to null
  instead of leaving the configuration unchanged (`HtmlTwiceLosesHtml`). Under
  Laravel's default error handler the second call throws instead (see "Left
  out").
- `addButton` dispatches with a PHP `switch`, which uses loose comparison. The
  model follows PHP 8 rules: the cancel branch is taken for the string
  `"cancel"` and also for boolean `true`.

A configuration entry named `alert` can only come from `setConfig`. Its
per-entry flash is overwritten by the JSON snapshot, because both use the
session key `sweet_alert.alert` (`Flash`).

## Model

| member | source | states |
|---|---|---|
| AlertConfig.DefaultConfig | src/SweetAlert/SweetAlertNotifier.php:50-58 | a fresh configuration has exactly the keys timer, text, showConfirmButton and showCancelButton; timer is the configured auto-close setting, or 1800 when none is set; text is empty; both button flags are false |
| AlertConfig.Message | src/SweetAlert/SweetAlertNotifier.php:71-86 | text is always set; title and type are set only when the argument is not null, and a null keeps the earlier entry (or its absence); every other entry is unchanged |
| AlertConfig.Basic | src/SweetAlert/SweetAlertNotifier.php:96-101 | sets text and a non-null title; the icon entry is kept exactly as it was; nothing else changes |
| AlertConfig.Info | src/SweetAlert/SweetAlertNotifier.php:111-116 | text set, type is "info", a non-null title set, a null title keeps the earlier one, nothing else changes |
| AlertConfig.Success | src/SweetAlert/SweetAlertNotifier.php:126-131 | as Info, with type "success" |
| AlertConfig.Error | src/SweetAlert/SweetAlertNotifier.php:141-146 | as Info, with type "error" |
| AlertConfig.Warning | src/SweetAlert/SweetAlertNotifier.php:156-161 | as Info, with type "warning" |
| AlertConfig.AutoClose | src/SweetAlert/SweetAlertNotifier.php:170-179 | a null argument leaves the configuration unchanged; any other value becomes the timer and no other entry changes |
| AlertConfig.ConfirmButton | src/SweetAlert/SweetAlertNotifier.php:188-198 | showConfirmButton is true, confirmButtonText is the label, allowOutsideClick is false, there is no timer, and all other entries are unchanged |
| AlertConfig.CancelButton | src/SweetAlert/SweetAlertNotifier.php:207-217 | the same for showCancelButton and cancelButtonText |
| AlertConfig.AddButton | src/SweetAlert/SweetAlertNotifier.php:228-245 | when the kind loosely equals 'cancel', the postcondition of a cancel button holds; for every other kind, that of a confirm button |
| AlertConfig.AllowOutsideClick | src/SweetAlert/SweetAlertNotifier.php:254-261 | allowOutsideClick takes the given value and no other entry changes |
| AlertConfig.Persistent | src/SweetAlert/SweetAlertNotifier.php:270-273 | the postcondition of a confirm button with the given label |
| AlertConfig.RemoveTimer | src/SweetAlert/SweetAlertNotifier.php:280-285 | the keys are the old keys minus timer, every other entry is kept, and without a timer the map is unchanged |
| AlertConfig.Html | src/SweetAlert/SweetAlertNotifier.php:292-300 | html holds the old text (or null when there was no text), text is gone, and no other entry changes |
| AlertConfig.SetConfig | src/SweetAlert/SweetAlertNotifier.php:351-358 | the keys are the union of both maps; entries of the partial map win; all other entries are kept |
| AlertConfig.GetConfig | src/SweetAlert/SweetAlertNotifier.php:333-342 | no key gives the whole map; a present key gives its value; an absent key gives null |
| AlertConfigProperties.TypedMessagesAreMessages | src/SweetAlert/SweetAlertNotifier.php:96-161 | info, success, error and warning equal message with the matching icon constant; basic equals message with no icon |
| AlertConfigProperties.TypedMessageDefaultTitleOverwrites | src/SweetAlert/SweetAlertNotifier.php:111-161 | with the default title '' a typed message always writes the title |
| AlertConfigProperties.DefaultArguments | src/SweetAlert/SweetAlertNotifier.php:71-273 | with the default arguments: message writes the empty text, the button labels are "OK" and "Cancel", allowOutsideClick is true, and autoClose changes nothing |
| AlertConfigProperties.MessageKeepsEarlierTitleAndIcon | src/SweetAlert/SweetAlertNotifier.php:71-81 | a later message with null title and icon replaces the text and keeps the earlier title and icon |
| AlertConfigProperties.AddButtonCancelIsCancelButton | src/SweetAlert/SweetAlertNotifier.php:228-245 | addButton with a kind loosely equal to 'cancel' gives exactly the configuration of cancelButton |
| AlertConfigProperties.AddButtonOtherIsConfirmButton | src/SweetAlert/SweetAlertNotifier.php:228-245 | addButton with any other kind gives exactly the configuration of confirmButton |
| AlertConfigProperties.AddButtonStringKind | src/SweetAlert/SweetAlertNotifier.php:228-238 | for string kinds, "cancel" gives cancelButton and every other string, including the default 'confirm', gives confirmButton |
| AlertConfigProperties.PersistentIsConfirmButton | src/SweetAlert/SweetAlertNotifier.php:270-273 | persistent(l) equals confirmButton(l); the default label is "OK" |
| AlertConfigProperties.ButtonsIdempotent | src/SweetAlert/SweetAlertNotifier.php:188-217 | adding the same confirm or cancel button twice gives the same configuration as adding it once |
| AlertConfigProperties.RemoveTimerIdempotent | src/SweetAlert/SweetAlertNotifier.php:280-285 | removing the timer a second time changes nothing |
| AlertConfigProperties.AutoCloseAfterButtonRestoresTimer | src/SweetAlert/SweetAlertNotifier.php:170-198 | autoClose after a button brings back the timer and keeps the button and allowOutsideClick = false |
| AlertConfigProperties.AllowOutsideClickAfterButton | src/SweetAlert/SweetAlertNotifier.php:207-261 | allowOutsideClick(true) after a button re-enables outside clicks and keeps the button |
| AlertConfigProperties.HtmlAfterMessage | src/SweetAlert/SweetAlertNotifier.php:71-81 | html() after a message holds that message's text and leaves no text entry |
| AlertConfigProperties.HtmlTwiceLosesHtml | src/SweetAlert/SweetAlertNotifier.php:292-296 | a second html() sets html to null, so it differs from the first call's result whenever the text was not null |
| AlertConfigProperties.MessageAfterHtmlKeepsStaleHtml | src/SweetAlert/SweetAlertNotifier.php:71-81 | a message after html() brings back text and keeps the earlier html entry next to it |
| AlertConfigProperties.SetConfigIdempotent | src/SweetAlert/SweetAlertNotifier.php:351-358 | merging the same partial map twice is merging it once; merging the empty map changes nothing |
| AlertConfigProperties.SetConfigComposes | src/SweetAlert/SweetAlertNotifier.php:351-358 | two merges equal one merge of the second partial map over the first |
| AlertConfigProperties.SetConfigRestoresTimerAfterButton | src/SweetAlert/SweetAlertNotifier.php:351-358 | setConfig({timer: 500}) after confirmButton brings back the timer while the button stays |
| AlertConfigProperties.GetConfigAbsentLooksNull | src/SweetAlert/SweetAlertNotifier.php:339-342 | getConfig(k) for an absent k equals getConfig(k) after storing null under k |
| AlertConfigProperties.GetConfigReadsBack | src/SweetAlert/SweetAlertNotifier.php:333-342 | getConfig reads back the text of a message and the label of a confirm button, and null for the timer after a button |
| AlertConfigProperties.SuccessOnFreshBuilder | src/SweetAlert/SweetAlertNotifier.php:126-131 | a fresh builder followed by success("Saved!", "Done") has exactly the default entries plus title "Done" and type "success" |
| AlertConfigProperties.ConfirmButtonOnFreshBuilder | src/SweetAlert/SweetAlertNotifier.php:188-198 | a fresh builder followed by confirmButton("Yes") has exactly text, both button flags, the label and allowOutsideClick = false, and no timer |
| FlashStore.SessionKeyInjective | src/SweetAlert/SweetAlertNotifier.php:310 | distinct configuration keys are flashed under distinct store keys `sweet_alert.<key>` |
| FlashStore.Flash | src/SweetAlert/SweetAlertNotifier.php:307-314 | after a flash, sweet_alert.alert holds the JSON of the configuration; sweet_alert.k holds config[k] for every other key k; every name the flash does not write keeps its old entry; no other key appears |
| FlashStore.FlashConfig | src/SweetAlert/SweetAlertNotifier.php:307-314 | the per-entry loop, whatever order it visits the entries in, followed by the snapshot write, leaves the session in the state Flash describes |
| FlashStore.FlashedFromIsFlash | src/SweetAlert/SweetAlertNotifier.php:307-314 | a session in the state Flash describes is equal to Flash, so the loop and the declarative definition agree |
| SweetAlertNotifier.Step | src/SweetAlert/SweetAlertNotifier.php:71-314 | every mutating call transforms the configuration and then flashes it: the session holds getJsonConfig() under sweet_alert.alert and every entry under its own key, a session entry the flash does not write keeps its value, and no other key appears |
| SweetAlertNotifier.RunLast | src/SweetAlert/SweetAlertNotifier.php:85 | a chain of calls ends with the step of its last call |
| SweetAlertNotifier.New | src/SweetAlert/SweetAlertNotifier.php:38-58 | a fresh builder has the default configuration (exactly timer, text, showConfirmButton and showCancelButton, timer from the auto-close setting or 1800, empty text, both flags false) and leaves the session as it was: the constructor flashes nothing |
| SweetAlertNotifier.GetJsonConfig | src/SweetAlert/SweetAlertNotifier.php:321-324 | once the builder has published its configuration, getJsonConfig() returns exactly the text stored under sweet_alert.alert |
| SweetAlertNotifier.ApplyButton | src/SweetAlert/SweetAlertNotifier.php:188-273 | every button call (confirm, cancel, add, persistent) leaves no timer and allowOutsideClick = false |
| SweetAlertNotifier.RunEndingWithButton | src/SweetAlert/SweetAlertNotifier.php:188-273 | any chain of calls that ends with a button call has no timer and allowOutsideClick = false |
| SweetAlertNotifier.RunPublishes | src/SweetAlert/SweetAlertNotifier.php:307-324 | after any non-empty chain the session holds the final configuration, entry by entry and as getJsonConfig() |
| SweetAlertNotifier.RunKeepsSessionKeys | src/SweetAlert/SweetAlertNotifier.php:307-314 | flashing never clears a session entry |
| SweetAlertNotifier.ApplyKeepsKeys | src/SweetAlert/SweetAlertNotifier.php:280-300 | no call removes a key other than timer (buttons) or text (html) |
| SweetAlertNotifier.RunKeepsButtonFlags | src/SweetAlert/SweetAlertNotifier.php:50-58 | once present, both button flags stay present through any chain, setConfig included |
| SweetAlertNotifier.ApplyStaysRecognized | src/SweetAlert/SweetAlertNotifier.php:71-300 | every call except setConfig writes only the option names the builder knows |
| SweetAlertNotifier.RunStaysRecognized | src/SweetAlert/SweetAlertNotifier.php:71-300 | a chain without setConfig keeps the configuration within the known option names |
| SweetAlertNotifier.FreshRunStaysRecognized | src/SweetAlert/SweetAlertNotifier.php:50-58 | from a fresh builder, a chain without setConfig never produces an unknown option |
| SweetAlertNotifier.ButtonLeavesStaleTimerFlash | src/SweetAlert/SweetAlertNotifier.php:280-314 | after a button the timer is gone from the configuration, but an earlier sweet_alert.timer session entry stays with its old value |

## Left out

- The Blade view `src/views/alert.blade.php`. It is HTML and JavaScript glue around the session facade and the client alert library. It also reads `config.content` from the pulled JSON rather than pulling `sweet_alert.content`.
- SweetAlertNotifier.GetJsonConfig: `json_encode` returns `false` on failure, for example for a string value that is not valid UTF-8. `getJsonConfig()` then returns `false`, and `sweet_alert.alert` holds `false`. The serialiser here always yields a string, so that failure is not modelled.
- Byte strings. PHP strings are byte strings, while a `Str` value here is a sequence of Unicode characters, so a string that is not valid UTF-8 cannot be written at all.
- The format of `json_encode`. The serialiser is a parameter, so no parse/serialise round trip is stated. The parameter is a function of the map alone, so the key order of the JSON text is not modelled.
- Session keys outside the `sweet_alert.` namespace. The builder never reads or writes them.
- The framework lookup `config('sweet-alert.autoclose', 1800)`. The setting is a parameter of `DefaultConfig` and `New`: either absent or a value.
- Flash lifetime in the session store (expiry after the next request, persistence across requests). The store is modelled as a plain map that flashes write into.
- The unused `$defaultButtonConfig` property.
- Integer keys and their renumbering by `array_merge`. Keys are strings only.
- AlertConfig.SetConfig: PHP stores a key that is a canonical decimal integer string, such as "0" or "42", as an integer key, and `array_merge` renumbers such keys (`setConfig(['42' => v])` adds key `0` and flashes `sweet_alert.0`). Such keys are out of scope: the model keeps every key as the string given, and its contract that the entries of the partial map win holds only for non-numeric keys.
- Floats, arrays and objects as configuration values. A value is a string, an integer, a boolean or null.
- The fluent `return $this`. Each call returns the new state, and `Run` chains calls.
- AlertConfig.Html: reading a missing `text` entry raises an E_WARNING ("Undefined array key") under PHP 8. Laravel's error handler turns that warning into an `ErrorException`, so inside the framework `html()` stops before it writes `html` and before `flashConfig()`. The model follows PHP with warnings not converted: `html` becomes null and the configuration is flashed. The exception path is not modelled.
- AlertConfig.AddButton: the loose comparison of the kind with 'cancel' follows PHP 8 rules. Under PHP 7 the integer 0 would also select the cancel branch.
