/**
 The builder as a whole: its configuration plus the session it publishes to.
 Every mutating call transforms the configuration and then flashes it; a run
 is a sequence of calls applied in order.
 */
module SweetAlertNotifier {
  import opened Values
  import AlertConfig
  import opened FlashStore

  datatype Notifier = Notifier(config: Config, session: Session)

  /** The public mutating operations, with their arguments. */
  datatype Call =
    | Message(text: Value, title: Value, icon: Value)
    | Basic(text: Value, title: Value)
    | Info(text: Value, title: Value)
    | Success(text: Value, title: Value)
    | Error(text: Value, title: Value)
    | Warning(text: Value, title: Value)
    | AutoClose(milliseconds: Value)
    | ConfirmButton(buttonText: Value)
    | CancelButton(buttonText: Value)
    | AddButton(buttonText: Value, kind: Value)
    | AllowOutsideClick(value: Value)
    | Persistent(buttonText: Value)
    | Html
    | SetConfig(partial: Config)

  /** Calls that add a button. */
  predicate IsButtonCall(call: Call)
  {
    call.ConfirmButton? || call.CancelButton? || call.AddButton? || call.Persistent?
  }

  /** The configuration after `call`. */
  function Apply(c: Config, call: Call): Config
  {
    match call
    case Message(text, title, icon) => AlertConfig.Message(c, text, title, icon)
    case Basic(text, title) => AlertConfig.Basic(c, text, title)
    case Info(text, title) => AlertConfig.Info(c, text, title)
    case Success(text, title) => AlertConfig.Success(c, text, title)
    case Error(text, title) => AlertConfig.Error(c, text, title)
    case Warning(text, title) => AlertConfig.Warning(c, text, title)
    case AutoClose(ms) => AlertConfig.AutoClose(c, ms)
    case ConfirmButton(t) => AlertConfig.ConfirmButton(c, t)
    case CancelButton(t) => AlertConfig.CancelButton(c, t)
    case AddButton(t, kind) => AlertConfig.AddButton(c, t, kind)
    case AllowOutsideClick(v) => AlertConfig.AllowOutsideClick(c, v)
    case Persistent(t) => AlertConfig.Persistent(c, t)
    case Html => AlertConfig.Html(c)
    case SetConfig(partial) => AlertConfig.SetConfig(c, partial)
  }

  /** A fresh builder: the default configuration, and the session exactly as
      given, since the constructor flashes nothing. */
  function New(session: Session, autoclose: Option<Value>): (r: Notifier)
    ensures r.session == session
    ensures r.config.Keys == {AlertConfig.TimerKey, AlertConfig.TextKey, AlertConfig.ShowConfirmKey, AlertConfig.ShowCancelKey}
    ensures autoclose.None? ==> r.config[AlertConfig.TimerKey] == Int(AlertConfig.TimerMilliseconds)
    ensures autoclose.Some? ==> r.config[AlertConfig.TimerKey] == autoclose.value
    ensures r.config[AlertConfig.TextKey] == Str("")
    ensures r.config[AlertConfig.ShowConfirmKey] == Bool(false) && r.config[AlertConfig.ShowCancelKey] == Bool(false)
  {
    Notifier(AlertConfig.DefaultConfig(autoclose), session)
  }

  /** `getJsonConfig()`: the configuration as serialised by `json`; once the
      builder has published, it is the text stored under the snapshot name. */
  function GetJsonConfig(n: Notifier, json: Config -> string): (r: string)
    ensures Published(n, json) ==> Get(n.session, SnapshotName) == Some(Str(r))
  {
    json(n.config)
  }

  /** The session holds a flash of the current configuration of `n`. */
  predicate Published(n: Notifier, json: Config -> string)
  {
    && SnapshotName in n.session
    && n.session[SnapshotName] == Str(json(n.config))
    && forall k :: k in n.config && k != SnapshotName ==> k in n.session && n.session[k] == n.config[k]
  }

  /** One public call: transform the configuration, then flash it. */
  function Step(n: Notifier, call: Call, json: Config -> string): (r: Notifier)
    ensures r.config == Apply(n.config, call)
    ensures Published(r, json)
    ensures FlashedFrom(n.session, r.config, json, r.session)
    ensures n.session.Keys <= r.session.Keys
  {
    var c := Apply(n.config, call);
    Notifier(c, Flash(n.session, c, json))
  }

  /** The calls applied one after another. */
  function Run(n: Notifier, calls: seq<Call>, json: Config -> string): Notifier
    decreases |calls|
  {
    if calls == [] then n else Run(Step(n, calls[0], json), calls[1..], json)
  }

  /** A run ends with the step of its last call. */
  lemma {:induction false} RunLast(n: Notifier, calls: seq<Call>, json: Config -> string)
    requires calls != []
    ensures Run(n, calls, json) == Step(Run(n, calls[..|calls| - 1], json), calls[|calls| - 1], json)
    decreases |calls|
  {
    if |calls| > 1 {
      var next := Step(n, calls[0], json);
      var rest := calls[1..];
      var init := calls[..|calls| - 1];
      RunLast(next, rest, json);
      assert rest[..|rest| - 1] == init[1..];
      assert rest[|rest| - 1] == calls[|calls| - 1];
      assert init != [] && init[0] == calls[0];
      assert Run(n, init, json) == Run(next, init[1..], json);
    }
  }

  /** Whatever came before, a run that ends by adding a button has no timer and
      cannot be closed by a click outside. */
  lemma RunEndingWithButton(n: Notifier, calls: seq<Call>, json: Config -> string)
    requires calls != [] && IsButtonCall(calls[|calls| - 1])
    ensures AlertConfig.TimerKey !in Run(n, calls, json).config
    ensures Get(Run(n, calls, json).config, AlertConfig.AllowOutsideClickKey) == Some(Bool(false))
  {
    RunLast(n, calls, json);
    var before := Run(n, calls[..|calls| - 1], json);
    ApplyButton(before.config, calls[|calls| - 1]);
  }

  /** Each button call leaves no timer and forbids closing by an outside click. */
  lemma ApplyButton(c: Config, call: Call)
    requires IsButtonCall(call)
    ensures AlertConfig.TimerKey !in Apply(c, call)
    ensures Get(Apply(c, call), AlertConfig.AllowOutsideClickKey) == Some(Bool(false))
  {
    match call
    case ConfirmButton(t) =>
    case CancelButton(t) =>
    case AddButton(t, kind) =>
    case Persistent(t) =>
  }

  /** After any non-empty run the session holds the JSON of the final
      configuration under the aggregate key, as `getJsonConfig` returns it. */
  lemma RunPublishes(n: Notifier, calls: seq<Call>, json: Config -> string)
    requires calls != []
    ensures Published(Run(n, calls, json), json)
  {
    RunLast(n, calls, json);
  }

  /** Flashing never clears a session entry. */
  lemma {:induction false} RunKeepsSessionKeys(n: Notifier, calls: seq<Call>, json: Config -> string)
    ensures n.session.Keys <= Run(n, calls, json).session.Keys
    decreases |calls|
  {
    if calls != [] {
      RunKeepsSessionKeys(Step(n, calls[0], json), calls[1..], json);
    }
  }

  /** No call removes a button-visibility flag, not even setConfig. */
  lemma {:induction false} RunKeepsButtonFlags(n: Notifier, calls: seq<Call>, json: Config -> string)
    requires AlertConfig.ShowConfirmKey in n.config && AlertConfig.ShowCancelKey in n.config
    ensures AlertConfig.ShowConfirmKey in Run(n, calls, json).config
    ensures AlertConfig.ShowCancelKey in Run(n, calls, json).config
    decreases |calls|
  {
    if calls != [] {
      var c := Apply(n.config, calls[0]);
      assert AlertConfig.ShowConfirmKey in c && AlertConfig.ShowCancelKey in c by {
        ApplyKeepsKeys(n.config, calls[0], AlertConfig.ShowConfirmKey);
        ApplyKeepsKeys(n.config, calls[0], AlertConfig.ShowCancelKey);
      }
      RunKeepsButtonFlags(Step(n, calls[0], json), calls[1..], json);
    }
  }

  /** Only `html()` (the text) and the button calls (the timer) remove a key. */
  lemma ApplyKeepsKeys(c: Config, call: Call, k: string)
    requires k in c && k != AlertConfig.TextKey && k != AlertConfig.TimerKey
    ensures k in Apply(c, call)
  {
  }

  /** Every call except setConfig writes only the option names the builder knows. */
  lemma ApplyStaysRecognized(c: Config, call: Call)
    requires !call.SetConfig? && c.Keys <= AlertConfig.RecognizedKeys
    ensures Apply(c, call).Keys <= AlertConfig.RecognizedKeys
  {
  }

  /** A run without setConfig keeps the configuration within the known option names. */
  lemma {:induction false} RunStaysRecognized(n: Notifier, calls: seq<Call>, json: Config -> string)
    requires n.config.Keys <= AlertConfig.RecognizedKeys
    requires forall i :: 0 <= i < |calls| ==> !calls[i].SetConfig?
    ensures Run(n, calls, json).config.Keys <= AlertConfig.RecognizedKeys
    decreases |calls|
  {
    if calls != [] {
      ApplyStaysRecognized(n.config, calls[0]);
      RunStaysRecognized(Step(n, calls[0], json), calls[1..], json);
    }
  }

  /** Starting from a fresh builder, a run without setConfig never invents an option. */
  lemma FreshRunStaysRecognized(session: Session, autoclose: Option<Value>, calls: seq<Call>, json: Config -> string)
    requires forall i :: 0 <= i < |calls| ==> !calls[i].SetConfig?
    ensures Run(New(session, autoclose), calls, json).config.Keys <= AlertConfig.RecognizedKeys
  {
    assert New(session, autoclose).config.Keys <= AlertConfig.RecognizedKeys;
    RunStaysRecognized(New(session, autoclose), calls, json);
  }

  /** A button removes the timer from the configuration but not from the
      session: the entry flashed earlier stays as it was. */
  lemma ButtonLeavesStaleTimerFlash(n: Notifier, buttonText: Value, json: Config -> string)
    requires AlertConfig.TimerKey in n.session
    ensures AlertConfig.TimerKey !in Step(n, ConfirmButton(buttonText), json).config
    ensures AlertConfig.TimerKey in Step(n, ConfirmButton(buttonText), json).session
    ensures Step(n, ConfirmButton(buttonText), json).session[AlertConfig.TimerKey]
         == n.session[AlertConfig.TimerKey]
  {
  }
}
