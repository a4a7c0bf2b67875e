/**
 Relations between the builder operations: which ones are aliases of which,
 which ones undo or repeat each other, and what reading the configuration back
 can and cannot tell apart.
 */
module AlertConfigProperties {
  import opened Values
  import opened AlertConfig

  /** The typed messages and `basic` are `message` with a fixed icon, or none. */
  lemma TypedMessagesAreMessages(c: Config, text: Value, title: Value)
    ensures Info(c, text, title) == Message(c, text, title, Str("info"))
    ensures Success(c, text, title) == Message(c, text, title, Str("success"))
    ensures Error(c, text, title) == Message(c, text, title, Str("error"))
    ensures Warning(c, text, title) == Message(c, text, title, Str("warning"))
    ensures Basic(c, text, title) == Message(c, text, title, Null)
  {
  }

  /** With its default title a typed message always writes the title, so an
      earlier title is overwritten by the empty one. */
  lemma TypedMessageDefaultTitleOverwrites(c: Config, text: Value)
    ensures Get(Info(c, text, DefaultTitle), TitleKey) == Some(Str(""))
    ensures Get(Success(c, text, DefaultTitle), TitleKey) == Some(Str(""))
    ensures Get(Error(c, text, DefaultTitle), TitleKey) == Some(Str(""))
    ensures Get(Warning(c, text, DefaultTitle), TitleKey) == Some(Str(""))
  {
  }

  /** What the operations do when called with their default arguments. */
  lemma DefaultArguments(c: Config)
    ensures Get(Message(c, DefaultText, Null, Null), TextKey) == Some(Str(""))
    ensures Get(ConfirmButton(c, DefaultConfirmLabel), ConfirmTextKey) == Some(Str("OK"))
    ensures Get(CancelButton(c, DefaultCancelLabel), CancelTextKey) == Some(Str("Cancel"))
    ensures Get(AllowOutsideClick(c, DefaultAllowOutsideClick), AllowOutsideClickKey) == Some(Bool(true))
    ensures AutoClose(c, Null) == c
  {
  }

  /** A message with a null title and icon replaces only the text. */
  lemma MessageKeepsEarlierTitleAndIcon(c: Config, t1: Value, title: Value, icon: Value, t2: Value)
    requires title != Null && icon != Null
    ensures Get(Message(Message(c, t1, title, icon), t2, Null, Null), TitleKey) == Some(title)
    ensures Get(Message(Message(c, t1, title, icon), t2, Null, Null), TypeKey) == Some(icon)
    ensures Get(Message(Message(c, t1, title, icon), t2, Null, Null), TextKey) == Some(t2)
  {
  }

  /** A kind that loosely equals 'cancel' makes addButton a cancelButton. */
  lemma AddButtonCancelIsCancelButton(c: Config, buttonText: Value, kind: Value)
    requires LooselyCancel(kind)
    ensures AddButton(c, buttonText, kind) == CancelButton(c, buttonText)
  {
  }

  /** Every other kind makes addButton a confirmButton. */
  lemma AddButtonOtherIsConfirmButton(c: Config, buttonText: Value, kind: Value)
    requires !LooselyCancel(kind)
    ensures AddButton(c, buttonText, kind) == ConfirmButton(c, buttonText)
  {
  }

  /** For string kinds the dispatch is exactly on the string "cancel"; the
      default kind 'confirm' gives a confirm button. */
  lemma AddButtonStringKind(c: Config, buttonText: Value, kind: string)
    ensures kind == "cancel" ==> AddButton(c, buttonText, Str(kind)) == CancelButton(c, buttonText)
    ensures kind != "cancel" ==> AddButton(c, buttonText, Str(kind)) == ConfirmButton(c, buttonText)
    ensures AddButton(c, buttonText, DefaultButtonKind) == ConfirmButton(c, buttonText)
  {
  }

  /** `persistent` is `confirmButton`, with the same default label. */
  lemma PersistentIsConfirmButton(c: Config, buttonText: Value)
    ensures Persistent(c, buttonText) == ConfirmButton(c, buttonText)
    ensures Persistent(c, DefaultConfirmLabel) == ConfirmButton(c, Str("OK"))
  {
  }

  /** Adding the same button twice is the same as adding it once. */
  lemma ButtonsIdempotent(c: Config, buttonText: Value)
    ensures ConfirmButton(ConfirmButton(c, buttonText), buttonText) == ConfirmButton(c, buttonText)
    ensures CancelButton(CancelButton(c, buttonText), buttonText) == CancelButton(c, buttonText)
  {
  }

  /** Removing the timer twice is removing it once. */
  lemma RemoveTimerIdempotent(c: Config)
    ensures RemoveTimer(RemoveTimer(c)) == RemoveTimer(c)
  {
  }

  /** Buttons and timer are not a guarded invariant: autoClose after a button
      brings the timer back and keeps the button. */
  lemma AutoCloseAfterButtonRestoresTimer(c: Config, buttonText: Value, milliseconds: int)
    ensures Get(AutoClose(ConfirmButton(c, buttonText), Int(milliseconds)), TimerKey) == Some(Int(milliseconds))
    ensures Get(AutoClose(ConfirmButton(c, buttonText), Int(milliseconds)), ShowConfirmKey) == Some(Bool(true))
    ensures Get(AutoClose(ConfirmButton(c, buttonText), Int(milliseconds)), AllowOutsideClickKey) == Some(Bool(false))
  {
    var b := ConfirmButton(c, buttonText);
    assert SameOn(b, AutoClose(b, Int(milliseconds)), ShowConfirmKey);
    assert SameOn(b, AutoClose(b, Int(milliseconds)), AllowOutsideClickKey);
  }

  /** Likewise allowOutsideClick after a button re-enables outside clicks. */
  lemma AllowOutsideClickAfterButton(c: Config, buttonText: Value)
    ensures Get(AllowOutsideClick(CancelButton(c, buttonText), Bool(true)), AllowOutsideClickKey) == Some(Bool(true))
    ensures Get(AllowOutsideClick(CancelButton(c, buttonText), Bool(true)), ShowCancelKey) == Some(Bool(true))
  {
    var b := CancelButton(c, buttonText);
    assert SameOn(b, AllowOutsideClick(b, Bool(true)), ShowCancelKey);
  }

  /** html() after a message turns exactly that message's text into html. */
  lemma HtmlAfterMessage(c: Config, text: Value, title: Value, icon: Value)
    ensures Get(Html(Message(c, text, title, icon)), HtmlKey) == Some(text)
    ensures TextKey !in Html(Message(c, text, title, icon))
  {
  }

  /** A second html() finds no text and, with PHP warnings not turned into
      exceptions, overwrites the html content with null; the first one's
      content is lost unless it was null already. */
  lemma HtmlTwiceLosesHtml(c: Config)
    ensures Get(Html(Html(c)), HtmlKey) == Some(Null)
    ensures TextKey in c && c[TextKey] != Null ==> Html(Html(c)) != Html(c)
  {
    if TextKey in c && c[TextKey] != Null {
      assert Html(c)[HtmlKey] != Html(Html(c))[HtmlKey];
    }
  }

  /** A later message after html() brings the text back next to the html entry. */
  lemma MessageAfterHtmlKeepsStaleHtml(c: Config, text: Value)
    requires TextKey in c
    ensures Get(Message(Html(c), text, Null, Null), HtmlKey) == Some(c[TextKey])
    ensures Get(Message(Html(c), text, Null, Null), TextKey) == Some(text)
  {
    var h := Html(c);
    assert SameOn(h, Message(h, text, Null, Null), HtmlKey);
  }

  /** setConfig is a right-biased merge: merging the same entries again changes
      nothing, and merging nothing changes nothing. */
  lemma SetConfigIdempotent(c: Config, partial: Config)
    ensures SetConfig(SetConfig(c, partial), partial) == SetConfig(c, partial)
    ensures SetConfig(c, map[]) == c
  {
  }

  /** Two merges are one merge of the second over the first. */
  lemma SetConfigComposes(c: Config, p: Config, q: Config)
    ensures SetConfig(SetConfig(c, p), q) == SetConfig(c, SetConfig(p, q))
  {
  }

  /** setConfig bypasses the button invariant: it can bring back the timer. */
  lemma SetConfigRestoresTimerAfterButton(c: Config, buttonText: Value)
    ensures Get(SetConfig(ConfirmButton(c, buttonText), map[TimerKey := Int(500)]), TimerKey) == Some(Int(500))
    ensures Get(SetConfig(ConfirmButton(c, buttonText), map[TimerKey := Int(500)]), ShowConfirmKey) == Some(Bool(true))
  {
  }

  /** getConfig(k) cannot tell an absent key from one that holds null. */
  lemma GetConfigAbsentLooksNull(c: Config, k: string)
    requires k !in c
    ensures GetConfig(c, Some(k)) == GetConfig(c[k := Null], Some(k))
  {
  }

  /** getConfig(k) reads back what the last writer of k wrote. */
  lemma GetConfigReadsBack(c: Config, text: Value, buttonText: Value)
    ensures GetConfig(Message(c, text, Null, Null), Some(TextKey)) == Single(text)
    ensures GetConfig(ConfirmButton(c, buttonText), Some(ConfirmTextKey)) == Single(buttonText)
    ensures GetConfig(ConfirmButton(c, buttonText), Some(TimerKey)) == Single(Null)
  {
  }

  /** A fresh builder followed by success("Saved!", "Done"). */
  lemma SuccessOnFreshBuilder(autoclose: Option<Value>)
    ensures Success(DefaultConfig(autoclose), Str("Saved!"), Str("Done")) ==
      map[TimerKey := DefaultConfig(autoclose)[TimerKey], TextKey := Str("Saved!"),
          ShowConfirmKey := Bool(false), ShowCancelKey := Bool(false),
          TitleKey := Str("Done"), TypeKey := Str("success")]
  {
  }

  /** A fresh builder followed by confirmButton("Yes"). */
  lemma ConfirmButtonOnFreshBuilder(autoclose: Option<Value>)
    ensures ConfirmButton(DefaultConfig(autoclose), Str("Yes")) ==
      map[TextKey := Str(""), ShowConfirmKey := Bool(true), ShowCancelKey := Bool(false),
          ConfirmTextKey := Str("Yes"), AllowOutsideClickKey := Bool(false)]
  {
  }
}
