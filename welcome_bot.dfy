/**
 * The welcome bot: shown after a delay unless an earlier visit dismissed
 * it, it types its greeting one UTF-16 code unit per tick and then offers
 * its buttons; dismissal is remembered in storage.
 */
module WelcomeBot {

  import opened Utf16

  /** U+1F44B WAVING HAND SIGN, which takes two code units. */
  const WavingHand: seq<CodeUnit> := [0xD83D, 0xDC4B]

  const MessageHead := "Hi! "
  const MessageTail := " Welcome to AI Trading Bot. I'm here to help you get started with intelligent trading solutions. Ready to transform your trading journey?"

  const Message: seq<CodeUnit> := Utf16Bmp(MessageHead) + WavingHand + Utf16Bmp(MessageTail)

  const DismissedKey := "welcomeBotDismissed"

  /** `localStorage.getItem(key)` taken as a condition: present and not the empty string. */
  predicate StoredTruthy(storage: map<string, string>, key: string) {
    key in storage && storage[key] != ""
  }

  predicate IsHighSurrogate(u: CodeUnit) {
    0xD800 <= u < 0xDC00
  }

  /** The greeting is typed by code units, so for one tick the text ends in half of the emoji. */
  lemma TypingSplitsEmoji()
    ensures |Message| == 143
    ensures IsHighSurrogate(Message[..5][4])
  {
    assert |Utf16Bmp(MessageHead)| == 4;
    assert Message[4] == WavingHand[0];
  }

  class Bot {
    /** The greeting this bot types. */
    const message: seq<CodeUnit>
    var isVisible: bool
    var isDismissed: bool
    var displayedText: seq<CodeUnit>
    var showButtons: bool
    /** The typing interval's counter. */
    var index: nat
    /** Whether the typing interval is running. */
    var typing: bool
    /** Whether the short delay before the buttons is pending. */
    var buttonsPending: bool
    /** Whether the initial show delay is pending. */
    var showPending: bool
    var storage: map<string, string>
    /** Every route handed to the router, in order. */
    var navigations: seq<string>

    /**
     * The displayed text is the first `index` code units of the greeting;
     * the buttons come only once it is complete; typing happens only on a
     * visible bot.
     */
    ghost predicate Valid()
      reads this
    {
      index <= |message| && displayedText == message[..index]
      && ((showButtons || buttonsPending) ==> index == |message| && !typing)
      && (typing ==> isVisible && !showPending)
      && (showPending ==> index == 0 && !isVisible && !typing && !showButtons && !buttonsPending)
    }

    /** Nothing renders once dismissed or before the bot is shown. */
    predicate Renders()
      reads this
    {
      !isDismissed && isVisible
    }

    /** The blinking cursor follows the text while it is shorter than the greeting. */
    predicate CursorShown()
      reads this
    {
      |displayedText| < |message|
    }

    /** The cursor shows exactly while characters remain to be typed, and never beside the buttons. */
    lemma CursorWhileTyping()
      requires Valid()
      ensures CursorShown() <==> index < |message|
      ensures showButtons ==> !CursorShown() && displayedText == message
    {
    }

    /** Mounting: the show delay starts. */
    constructor (storage: map<string, string>)
      ensures Valid()
      ensures !isVisible && !isDismissed && displayedText == [] && !showButtons
      ensures index == 0 && !typing && !buttonsPending && showPending
      ensures this.storage == storage && navigations == [] && message == Message
    {
      message := Message;
      isVisible := false;
      isDismissed := false;
      displayedText := [];
      showButtons := false;
      index := 0;
      typing := false;
      buttonsPending := false;
      showPending := true;
      this.storage := storage;
      navigations := [];
    }

    /** The show delay ends: the bot appears and starts typing only if no dismissal is stored. */
    method ShowTimerFires()
      requires Valid() && showPending
      modifies this
      ensures Valid() && !showPending
      ensures isVisible == !StoredTruthy(storage, DismissedKey)
      ensures typing == isVisible && index == 0 && displayedText == []
      ensures isDismissed == old(isDismissed) && showButtons == old(showButtons) && buttonsPending == old(buttonsPending)
      ensures storage == old(storage) && navigations == old(navigations)
    {
      showPending := false;
      if !StoredTruthy(storage, DismissedKey) {
        isVisible := true;
        index := 0;
        typing := true;
      }
    }

    /** A typing tick: one more code unit, or, at the end, the interval stops and the buttons' delay starts. */
    method TypingTick()
      requires Valid() && typing
      modifies this
      ensures Valid()
      ensures old(index) < |message| ==> index == old(index) + 1 && typing && !buttonsPending
      ensures old(index) < |message| ==> displayedText == old(displayedText) + [message[old(index)]]
      ensures old(index) == |message| ==> index == old(index) && !typing && buttonsPending && displayedText == message
      ensures isVisible == old(isVisible) && isDismissed == old(isDismissed) && showButtons == old(showButtons)
      ensures showPending == old(showPending) && storage == old(storage) && navigations == old(navigations)
    {
      if index < |message| {
        assert message[..index + 1] == message[..index] + [message[index]];
        displayedText := message[..index + 1];
        index := index + 1;
      } else {
        typing := false;
        buttonsPending := true;
      }
    }

    method ButtonsTimerFires()
      requires Valid() && buttonsPending
      modifies this
      ensures Valid() && showButtons && !buttonsPending && displayedText == message
      ensures isVisible == old(isVisible) && isDismissed == old(isDismissed) && index == old(index) && typing == old(typing)
      ensures showPending == old(showPending) && storage == old(storage) && navigations == old(navigations)
    {
      showButtons := true;
      buttonsPending := false;
    }

    /** The close button: dismissed from now on, and remembered for later visits. */
    method Dismiss()
      requires Valid()
      modifies this
      ensures Valid() && isDismissed && !Renders()
      ensures storage == old(storage)[DismissedKey := "true"] && StoredTruthy(storage, DismissedKey)
      ensures isVisible == old(isVisible) && displayedText == old(displayedText) && showButtons == old(showButtons)
      ensures index == old(index) && typing == old(typing) && buttonsPending == old(buttonsPending) && showPending == old(showPending)
      ensures navigations == old(navigations)
    {
      isDismissed := true;
      storage := storage[DismissedKey := "true"];
    }

    /** The Register and Download buttons navigate first and then dismiss. */
    method ButtonClick(path: string)
      requires Valid() && (path == "/register" || path == "/download")
      modifies this
      ensures Valid() && isDismissed && !Renders()
      ensures navigations == old(navigations) + [path]
      ensures storage == old(storage)[DismissedKey := "true"]
      ensures isVisible == old(isVisible) && displayedText == old(displayedText) && showButtons == old(showButtons)
      ensures index == old(index) && typing == old(typing) && buttonsPending == old(buttonsPending) && showPending == old(showPending)
    {
      navigations := navigations + [path];
      Dismiss();
    }
  }
}
