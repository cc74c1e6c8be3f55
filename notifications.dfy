/** The console every notification and sender writes its lines to, as an append-only log. */
module Output {
  class Console {
    var lines: seq<string>

    constructor ()
      ensures lines == []
    {
      lines := [];
    }

    /** `Console.WriteLine(line)` */
    method WriteLine(line: string)
      modifies this
      ensures lines == old(lines) + [line]
    {
      lines := lines + [line];
    }
  }
}

/**
 * The notification products: one per channel, each with its maximum length, its own
 * formatting of the outgoing text and its own optional extras (attachments, flash mode,
 * inline keyboard).
 */
module Notifications {
  import opened Wrappers
  import opened Text
  import opened Output

  datatype Channel = Email | Sms | Telegram

  /**
   * The longest text a channel sends; a constant of the channel alone. Every channel
   * leaves room after the `"[HH:mm:ss] "` stamp.
   */
  function MaxLength(c: Channel): (n: nat)
    ensures StampLength < n
  {
    match c
    case Email => 5000
    case Sms => 160
    case Telegram => 4096
  }

  // ---------------------------------------------------------------------------
  // The time stamp "[HH:mm:ss] " put in front of every message

  /** A local time of day, as `DateTime.Now` provides it to the nearest second. */
  datatype Clock = Clock(hour: nat, minute: nat, second: nat) {
    predicate Valid() {
      hour < 24 && minute < 60 && second < 60
    }
  }

  predicate IsDigit(c: char) {
    '0' <= c <= '9'
  }

  function DigitValue(c: char): nat
    requires IsDigit(c)
  {
    c as int - '0' as int
  }

  /** `n` written with exactly two decimal digits, zero-padded. */
  function TwoDigits(n: nat): (r: string)
    requires n < 100
    ensures |r| == 2 && IsDigit(r[0]) && IsDigit(r[1])
    ensures 10 * DigitValue(r[0]) + DigitValue(r[1]) == n
  {
    [('0' as int + n / 10) as char, ('0' as int + n % 10) as char]
  }

  /** Eight characters shaped like `HH:mm:ss`. */
  predicate IsClockText(s: string) {
    && |s| == 8
    && IsDigit(s[0]) && IsDigit(s[1]) && s[2] == ':'
    && IsDigit(s[3]) && IsDigit(s[4]) && s[5] == ':'
    && IsDigit(s[6]) && IsDigit(s[7])
  }

  /** The format string `HH:mm:ss`: 24-hour clock, every field two digits. */
  function FormatClock(t: Clock): (r: string)
    requires t.Valid()
    ensures IsClockText(r)
  {
    TwoDigits(t.hour) + ":" + TwoDigits(t.minute) + ":" + TwoDigits(t.second)
  }

  /** Reads the hour, minute and second back from a text shaped like `HH:mm:ss`. */
  function ParseClock(s: string): Clock
    requires IsClockText(s)
  {
    Clock(10 * DigitValue(s[0]) + DigitValue(s[1]),
          10 * DigitValue(s[3]) + DigitValue(s[4]),
          10 * DigitValue(s[6]) + DigitValue(s[7]))
  }

  /** The stamp loses nothing: the time can be read back from it. */
  lemma ClockRoundTrip(t: Clock)
    requires t.Valid()
    ensures ParseClock(FormatClock(t)) == t
  {
    var h, m, s := TwoDigits(t.hour), TwoDigits(t.minute), TwoDigits(t.second);
    var r := FormatClock(t);
    assert r[0] == h[0] && r[1] == h[1];
    assert r[3] == m[0] && r[4] == m[1];
    assert r[6] == s[0] && r[7] == s[1];
  }

  /** Length of the `"[HH:mm:ss] "` stamp. */
  const StampLength: nat := 11

  /** The prepared message `"[" + time + "] " + message` of `send_notice`. */
  function Stamped(now: Clock, message: string): (r: string)
    requires now.Valid()
    ensures |r| == StampLength + |message|
    ensures r[0] == '[' && r[1..9] == FormatClock(now) && IsClockText(r[1..9]) && r[9..11] == "] "
    ensures r[StampLength..] == message
  {
    "[" + FormatClock(now) + "] " + message
  }

  /**
   * The text `send_notice` hands to the notification: the prepared message cut to the
   * channel's maximum length. The cut only ever falls in the caller's message, never in
   * the stamp; the text never exceeds the maximum, and it is shorter than the prepared
   * message exactly when the message is longer than the room left after the stamp.
   */
  lemma {:induction false} SentTextShape(c: Channel, now: Clock, message: string)
    requires now.Valid()
    ensures var text := Take(Stamped(now, message), MaxLength(c));
            && |text| <= MaxLength(c)
            && text == "[" + FormatClock(now) + "] " + Take(message, MaxLength(c) - StampLength)
            && text[0] == '[' && IsDigit(text[1])
            && (text != Stamped(now, message) <==> |message| > MaxLength(c) - StampLength)
  {
    var prepared := Stamped(now, message);
    var head := "[" + FormatClock(now) + "] ";
    var n := MaxLength(c);
    assert prepared == head + message;
    if |prepared| > n {
      assert prepared[..n] == head + message[..n - StampLength];
    }
  }

  // ---------------------------------------------------------------------------
  // Channel formatting

  const HtmlHead := "<html><body><h1>Новое сообщение</h1><p>"
  const HtmlTail := "</p></body></html>"

  /** `format_to_html`: the text as the paragraph of a fixed HTML page. */
  function FormatToHtml(text: string): string {
    HtmlHead + text + HtmlTail
  }

  /** The paragraph of a page in the `FormatToHtml` layout, if it has that layout. */
  function HtmlParagraph(html: string): Option<string> {
    if |html| >= |HtmlHead| + |HtmlTail| && StartsWith(html, HtmlHead)
       && html[|html| - |HtmlTail|..] == HtmlTail
    then Some(html[|HtmlHead|..|html| - |HtmlTail|])
    else None
  }

  /** The HTML wrapper is a fixed frame around the text: the text can be read back out. */
  lemma HtmlRoundTrip(text: string)
    ensures HtmlParagraph(FormatToHtml(text)) == Some(text)
  {
    var html := FormatToHtml(text);
    assert html[..|HtmlHead|] == HtmlHead;
    assert html[|html| - |HtmlTail|..] == HtmlTail;
    assert html[|HtmlHead|..|html| - |HtmlTail|] == text;
  }

  /** `applay_markdown`: the text in Markdown bold. */
  function ApplyMarkdown(text: string): string {
    "*" + text + "*"
  }

  /** The text inside a Markdown bold span, if the string is one. */
  function MarkdownBold(s: string): Option<string> {
    if |s| >= 2 && s[0] == '*' && s[|s| - 1] == '*' then Some(s[1..|s| - 1]) else None
  }

  lemma MarkdownRoundTrip(text: string)
    ensures MarkdownBold(ApplyMarkdown(text)) == Some(text)
  {
    assert ApplyMarkdown(text)[1..|text| + 1] == text;
  }

  const FlashPrefix := "[FLASH] "

  /** The SMS body: `"[FLASH] "` in front of the text for a flash message. */
  function SmsText(isFlash: bool, text: string): string {
    (if isFlash then FlashPrefix else "") + text
  }

  /**
   * For a time-stamped text, the SMS body starts with `"[FLASH] "` exactly when the
   * message is a flash message: a stamp can never be taken for the prefix.
   */
  lemma FlashPrefixIffFlash(isFlash: bool, text: string)
    requires |text| >= 2 && text[0] == '[' && IsDigit(text[1])
    ensures StartsWith(SmsText(isFlash, text), FlashPrefix) <==> isFlash
  {
    var body := SmsText(isFlash, text);
    if isFlash {
      assert body[..|FlashPrefix|] == FlashPrefix;
    } else {
      assert body[1] == text[1];
      assert FlashPrefix[1] == 'F';
    }
  }

  /**
   * What an SMS recipient sees of `send_notice`: the body starts with `"[FLASH] "`
   * exactly when the notification was put in flash mode, however long the message.
   */
  lemma SmsFlashVisible(isFlash: bool, now: Clock, message: string)
    requires now.Valid()
    ensures StartsWith(SmsText(isFlash, Take(Stamped(now, message), MaxLength(Sms))), FlashPrefix) <==> isFlash
  {
    SentTextShape(Sms, now, message);
    FlashPrefixIffFlash(isFlash, Take(Stamped(now, message), MaxLength(Sms)));
  }

  /** A button list the notification shows: present and not empty. */
  predicate HasButtons(buttons: Option<seq<string>>) {
    buttons.Some? && |buttons.value| > 0
  }

  // ---------------------------------------------------------------------------
  // Console lines

  function AttachedLine(fileName: string): string {
    "Файл '" + fileName + "' прикреплен к письму."
  }

  const FlashModeLine := "Режим Flash-SMS активирован."

  function KeyboardLine(buttons: seq<string>): string {
    "Добавлены кнопки: [" + Join(buttons, " | ") + "]"
  }

  function AttachmentsLine(files: seq<string>): string {
    "Прикрепленные файлы: " + Join(files, ", ")
  }

  function ButtonsLine(buttons: seq<string>): string {
    "[Кнопки]: " + Join(buttons, " | ")
  }

  function EmailLine(recipient: string, html: string): string {
    "Отправка Email на " + recipient + ": " + html
  }

  function SmsLine(recipient: string, text: string): string {
    "Отправка SMS на " + recipient + ": " + text
  }

  function TelegramLine(recipient: string, text: string): string {
    "Отправка в TG чат " + recipient + ": " + text
  }

  // ---------------------------------------------------------------------------

  /**
   * A notification of one channel, for one recipient. The three product classes of
   * lab01/lab1.cs are one class tagged by `channel`; each keeps only its own extra:
   * the attachment list (Email), the flash flag (SMS) or the buttons (Telegram,
   * `None` for a null array).
   */
  class Notification {
    const channel: Channel
    const recipient: string
    const out: Console
    var files: seq<string>
    var isFlash: bool
    var buttons: Option<seq<string>>

    /** The extras of the other channels stay at their initial values. */
    ghost predicate Valid()
      reads this
    {
      && (channel != Email ==> files == [])
      && (channel != Sms ==> !isFlash)
      && (channel != Telegram ==> buttons == None)
    }

    constructor (channel: Channel, recipient: string, out: Console)
      ensures Valid()
      ensures this.channel == channel && this.recipient == recipient && this.out == out
      ensures files == [] && !isFlash && buttons == None
    {
      this.channel := channel;
      this.recipient := recipient;
      this.out := out;
      files := [];
      isFlash := false;
      buttons := None;
    }

    /** `EmailNotification.add_attachment`: one more file, the earlier ones kept. */
    method AddAttachment(fileName: string)
      requires Valid() && channel == Email
      modifies this`files, out
      ensures Valid()
      ensures files == old(files) + [fileName]
      ensures out.lines == old(out.lines) + [AttachedLine(fileName)]
    {
      files := files + [fileName];
      out.WriteLine(AttachedLine(fileName));
    }

    /** `SmsNotification.enable_flash_mode` */
    method EnableFlashMode()
      requires Valid() && channel == Sms
      modifies this`isFlash, out
      ensures Valid()
      ensures isFlash
      ensures out.lines == old(out.lines) + [FlashModeLine]
    {
      isFlash := true;
      out.WriteLine(FlashModeLine);
    }

    /** `TelegramNotification.add_inline_keyboard`: the buttons are replaced, not extended. */
    method AddInlineKeyboard(newButtons: seq<string>)
      requires Valid() && channel == Telegram
      modifies this`buttons, out
      ensures Valid()
      ensures buttons == Some(newButtons)
      ensures out.lines == old(out.lines) + [KeyboardLine(newButtons)]
    {
      buttons := Some(newButtons);
      out.WriteLine(KeyboardLine(newButtons));
    }

    /**
     * What `Send(message)` writes: the attachment or button line when there is
     * something to list, then the formatted message addressed to the recipient.
     */
    function SendLines(message: string): seq<string>
      reads this
    {
      match channel
      case Email =>
        (if |files| > 0 then [AttachmentsLine(files)] else [])
        + [EmailLine(recipient, FormatToHtml(message))]
      case Sms =>
        [SmsLine(recipient, SmsText(isFlash, message))]
      case Telegram =>
        (if HasButtons(buttons) then [ButtonsLine(buttons.value)] else [])
        + [TelegramLine(recipient, ApplyMarkdown(message))]
    }

    /** `Send`: the notification itself is left as it was. */
    method Send(message: string)
      modifies out
      ensures out.lines == old(out.lines) + SendLines(message)
    {
      match channel
      case Email =>
        if |files| > 0 {
          out.WriteLine(AttachmentsLine(files));
        }
        out.WriteLine(EmailLine(recipient, FormatToHtml(message)));
      case Sms =>
        out.WriteLine(SmsLine(recipient, SmsText(isFlash, message)));
      case Telegram =>
        if HasButtons(buttons) {
          out.WriteLine(ButtonsLine(buttons.value));
        }
        out.WriteLine(TelegramLine(recipient, ApplyMarkdown(message)));
    }
  }
}
