/**
 * Two consecutive sends through each channel branch of the sending form, starting from
 * a fresh sender and an empty console. They show what the console receives, and that
 * the configuration given before the first send reaches only the first notification.
 */
module Scenarios {
  import opened Wrappers
  import opened Text
  import opened Output
  import opened Notifications
  import opened Senders

  /**
   * SMS: flash requested, a 200-character message, then a second message without a new
   * request. The first text is the stamped message cut to 160 characters, behind the
   * flash prefix and after a warning; the second carries no flash prefix.
   */
  method SmsFlashThenPlain(apiKey: string, recipient: string, message: string, next: string, now: Clock)
    returns (lines: seq<string>)
    requires now.Valid() && |message| == 200
    ensures lines == [FlashModeLine, WarningLine,
                      SmsLine(recipient, FlashPrefix + Stamped(now, message)[..160])]
                     + WarningLines(Stamped(now, next), 160)
                     + [SmsLine(recipient, Take(Stamped(now, next), 160))]
  {
    var out := new Console();
    var sms := new NotificationSender.SmsSender(apiKey, out);
    sms.EnableFlashMode();
    assert sms.PendingLines() == [FlashModeLine];
    var first := sms.SendNotice(recipient, message, now);
    assert first.SendLines(Stamped(now, message)[..160])
        == [SmsLine(recipient, FlashPrefix + Stamped(now, message)[..160])];
    assert out.lines == [FlashModeLine, WarningLine,
                         SmsLine(recipient, FlashPrefix + Stamped(now, message)[..160])];
    assert sms.PendingLines() == [];
    var second := sms.SendNotice(recipient, next, now);
    assert SmsText(false, Take(Stamped(now, next), 160)) == Take(Stamped(now, next), 160);
    assert second.SendLines(Take(Stamped(now, next), 160))
        == [SmsLine(recipient, Take(Stamped(now, next), 160))];
    lines := out.lines;
  }

  /**
   * Email: two files queued, then two sends. The first notification gets both files
   * and lists them joined with ", "; the second has no attachment line.
   */
  method EmailAttachmentsThenPlain(senderName: string, recipient: string, message: string, now: Clock,
                                   fileA: string, fileB: string)
    returns (lines: seq<string>)
    requires now.Valid() && |message| <= 100
    ensures lines == [AttachedLine(fileA), AttachedLine(fileB), AttachmentsLine([fileA, fileB]),
                      EmailLine(recipient, FormatToHtml(Stamped(now, message))),
                      EmailLine(recipient, FormatToHtml(Stamped(now, message)))]
  {
    var out, email := EmailFirstSend(senderName, recipient, message, now, fileA, fileB);
    var text := Stamped(now, message);
    assert Take(text, 5000) == text && WarningLines(text, 5000) == [];
    assert email.PendingLines() == [];
    var second := email.SendNotice(recipient, message, now);
    assert second.SendLines(text) == [EmailLine(recipient, FormatToHtml(text))];
    lines := out.lines;
  }

  /** The first send of `EmailAttachmentsThenPlain`, with `fileA` and `fileB` queued. */
  method EmailFirstSend(senderName: string, recipient: string, message: string, now: Clock,
                        fileA: string, fileB: string)
    returns (out: Console, email: NotificationSender)
    requires now.Valid() && |message| <= 100
    ensures fresh(out) && fresh(email)
    ensures email.Valid() && email.channel == Email && email.out == out && email.attachments == []
    ensures out.lines == [AttachedLine(fileA), AttachedLine(fileB), AttachmentsLine([fileA, fileB]),
                          EmailLine(recipient, FormatToHtml(Stamped(now, message)))]
  {
    out := new Console();
    email := new NotificationSender.EmailSender(senderName, out);
    email.AddAttachment(fileA);
    email.AddAttachment(fileB);
    assert email.PendingLines() == [AttachedLine(fileA), AttachedLine(fileB)];
    var text := Stamped(now, message);
    assert Take(text, 5000) == text && WarningLines(text, 5000) == [];
    var first := email.SendNotice(recipient, message, now);
    assert first.files == [fileA, fileB];
    assert first.SendLines(text) == [AttachmentsLine([fileA, fileB]), EmailLine(recipient, FormatToHtml(text))];
  }

  /**
   * Telegram: `labels`, the non-empty label list parsed from the buttons box, become
   * the keyboard of the first notification only, and are listed with " | " before its text.
   */
  method TelegramButtonsThenPlain(token: string, recipient: string, message: string, now: Clock,
                                  labels: seq<string>)
    returns (lines: seq<string>)
    requires now.Valid() && |message| <= 100
    requires labels != []
    ensures lines == [KeyboardLine(labels), ButtonsLine(labels),
                      TelegramLine(recipient, ApplyMarkdown(Stamped(now, message))),
                      TelegramLine(recipient, ApplyMarkdown(Stamped(now, message)))]
  {
    var out, tg := TelegramFirstSend(token, recipient, message, now, labels);
    var text := Stamped(now, message);
    var sent := TelegramLine(recipient, ApplyMarkdown(text));
    assert Take(text, 4096) == text && WarningLines(text, 4096) == [];
    assert tg.PendingLines() == [];
    var second := tg.SendNotice(recipient, message, now);
    assert second.SendLines(text) == [sent];
    lines := out.lines;
  }

  /** The first send of `TelegramButtonsThenPlain`, with `labels` set as inline keyboard. */
  method TelegramFirstSend(token: string, recipient: string, message: string, now: Clock,
                           labels: seq<string>)
    returns (out: Console, tg: NotificationSender)
    requires now.Valid() && |message| <= 100 && labels != []
    ensures fresh(out) && fresh(tg)
    ensures tg.Valid() && tg.channel == Telegram && tg.out == out && tg.buttons == None
    ensures out.lines == [KeyboardLine(labels), ButtonsLine(labels),
                          TelegramLine(recipient, ApplyMarkdown(Stamped(now, message)))]
  {
    out := new Console();
    tg := new NotificationSender.TelegramSender(token, out);
    tg.AddInlineKeyboard(Some(labels));
    var text := Stamped(now, message);
    assert Take(text, 4096) == text && WarningLines(text, 4096) == [];
    assert tg.PendingLines() == [KeyboardLine(labels)];
    var first := tg.SendNotice(recipient, message, now);
    assert first.SendLines(text) == [ButtonsLine(labels), TelegramLine(recipient, ApplyMarkdown(text))];
  }
}
