/**
 * The notification creators: a sender builds a fresh notification for every call of
 * `SendNotice`, applies its pending configuration to it once, time-stamps and cuts the
 * message to the channel's maximum length, and sends it.
 */
module Senders {
  import opened Wrappers
  import opened Text
  import opened Output
  import opened Notifications

  const WarningLine := "Предупреждение: Сообщение слишком длинное и будет обрезано."

  function IdentityLine(name: string): string {
    "Имя отправителя Email изменено на: " + name
  }

  /** What `validate_message` writes: a warning exactly when the message is cut. */
  function WarningLines(message: string, maxLength: nat): seq<string> {
    if |message| > maxLength then [WarningLine] else []
  }

  /** One `AttachedLine` per file, in order. */
  function AttachedLines(files: seq<string>): seq<string> {
    seq(|files|, k requires 0 <= k < |files| => AttachedLine(files[k]))
  }

  /**
   * Attaching a list in two parts writes the lines of the first part, then those of the
   * second: the per-file loop of `EmailSender.Configure` extends the log one file at a time.
   */
  lemma AttachedLinesAppend(a: seq<string>, b: seq<string>)
    ensures AttachedLines(a + b) == AttachedLines(a) + AttachedLines(b)
  {
    var l, r := AttachedLines(a + b), AttachedLines(a) + AttachedLines(b);
    forall k | 0 <= k < |l| ensures l[k] == r[k] {
      if k < |a| {
        assert (a + b)[k] == a[k];
      } else {
        assert (a + b)[k] == b[k - |a|];
      }
    }
  }

  /**
   * A sender of one channel. The three creator classes of lab01/lab1.cs are one class
   * tagged by `channel`; `identity` is the sender name, API key or bot token, and each
   * keeps only its own pending configuration: files to attach (Email), a flash request
   * (SMS) or buttons (Telegram, `None` for a null array).
   */
  class NotificationSender {
    const channel: Channel
    const out: Console
    var identity: string
    var attachments: seq<string>
    var useFlash: bool
    var buttons: Option<seq<string>>

    /** The pending configuration of the other channels stays empty. */
    ghost predicate Valid()
      reads this
    {
      && (channel != Email ==> attachments == [])
      && (channel != Sms ==> !useFlash)
      && (channel != Telegram ==> buttons == None)
    }

    constructor EmailSender(senderName: string, out: Console)
      ensures Valid() && channel == Email && this.out == out && identity == senderName
      ensures attachments == [] && !useFlash && buttons == None
    {
      channel, this.out, identity := Email, out, senderName;
      attachments, useFlash, buttons := [], false, None;
    }

    constructor SmsSender(apiKey: string, out: Console)
      ensures Valid() && channel == Sms && this.out == out && identity == apiKey
      ensures attachments == [] && !useFlash && buttons == None
    {
      channel, this.out, identity := Sms, out, apiKey;
      attachments, useFlash, buttons := [], false, None;
    }

    constructor TelegramSender(token: string, out: Console)
      ensures Valid() && channel == Telegram && this.out == out && identity == token
      ensures attachments == [] && !useFlash && buttons == None
    {
      channel, this.out, identity := Telegram, out, token;
      attachments, useFlash, buttons := [], false, None;
    }

    /** `EmailSender.AddAttachment`: queued for the next notification. */
    method AddAttachment(fileName: string)
      requires Valid() && channel == Email
      modifies this`attachments
      ensures Valid()
      ensures attachments == old(attachments) + [fileName]
    {
      attachments := attachments + [fileName];
    }

    /** `SmsSender.EnableFlashMode`: requested for the next notification. */
    method EnableFlashMode()
      requires Valid() && channel == Sms
      modifies this`useFlash
      ensures Valid() && useFlash
    {
      useFlash := true;
    }

    /** `TelegramSender.AddInlineKeyboard`: replaces any buttons still pending. */
    method AddInlineKeyboard(newButtons: Option<seq<string>>)
      requires Valid() && channel == Telegram
      modifies this`buttons
      ensures Valid() && buttons == newButtons
    {
      buttons := newButtons;
    }

    /** `EmailSender.set_sender_identity`: only the sender name changes. */
    method SetSenderIdentity(newName: string)
      requires Valid() && channel == Email
      modifies this`identity, out
      ensures Valid() && identity == newName
      ensures out.lines == old(out.lines) + [IdentityLine(newName)]
    {
      identity := newName;
      out.WriteLine(IdentityLine(newName));
    }

    /** `create_notification`: the product of this sender's channel, with no extras yet. */
    method CreateNotification(recipient: string) returns (n: Notification)
      ensures fresh(n) && n.Valid()
      ensures n.channel == channel && n.recipient == recipient && n.out == out
      ensures n.files == [] && !n.isFlash && n.buttons == None
    {
      n := new Notification(channel, recipient, out);
    }

    /** What `Configure` writes while it applies the pending configuration. */
    function PendingLines(): seq<string>
      reads this
    {
      match channel
      case Email => AttachedLines(attachments)
      case Sms => if useFlash then [FlashModeLine] else []
      case Telegram => if HasButtons(buttons) then [KeyboardLine(buttons.value)] else []
    }

    /**
     * The `Configure` hook, applied to this sender's own product: the pending files are
     * attached in order, the flash request is applied, a present and non-empty button
     * list is applied; each buffer is then cleared. An empty buffer changes nothing,
     * and an empty (non-null) button list stays pending.
     */
    method Configure(n: Notification)
      requires Valid() && n.Valid() && n.channel == channel && n.out == out
      modifies this`attachments, this`useFlash, this`buttons, n`files, n`isFlash, n`buttons, out
      ensures Valid() && n.Valid()
      ensures n.files == old(n.files) + old(attachments)
      ensures n.isFlash == (old(n.isFlash) || old(useFlash))
      ensures n.buttons == if HasButtons(old(buttons)) then old(buttons) else old(n.buttons)
      ensures attachments == [] && !useFlash
      ensures buttons == if HasButtons(old(buttons)) then None else old(buttons)
      ensures out.lines == old(out.lines) + old(PendingLines())
    {
      match channel
      case Email =>
        if |attachments| > 0 {
          var pending := attachments;
          for i := 0 to |pending|
            modifies n`files, out
            invariant n.Valid()
            invariant n.files == old(n.files) + pending[..i]
            invariant out.lines == old(out.lines) + AttachedLines(pending[..i])
          {
            assert pending[..i + 1] == pending[..i] + [pending[i]];
            AttachedLinesAppend(pending[..i], [pending[i]]);
            n.AddAttachment(pending[i]);
          }
          assert pending[..|pending|] == pending;
          attachments := [];
        }
      case Sms =>
        if useFlash {
          n.EnableFlashMode();
          useFlash := false;
        }
      case Telegram =>
        if HasButtons(buttons) {
          n.AddInlineKeyboard(buttons.value);
          buttons := None;
        }
    }

    /** `validate_message`: the message cut to `maxLength`, with a warning when it is cut. */
    method ValidateMessage(message: string, maxLength: nat) returns (validated: string)
      modifies out
      ensures validated == Take(message, maxLength)
      ensures out.lines == old(out.lines) + WarningLines(message, maxLength)
    {
      validated := message;
      if |message| > maxLength {
        out.WriteLine(WarningLine);
        validated := message[..maxLength];
      }
    }

    /**
     * `send_notice`, the fixed algorithm of every channel, with the time of day `now`
     * as a parameter. `sent` is the notification it creates (and `send_notice` discards):
     * it carries the configuration that was pending, the buffers are empty afterwards,
     * and the console receives the configuration lines, the warning if the stamped
     * message had to be cut, and the notification's own lines for the cut text.
     */
    method SendNotice(recipient: string, message: string, now: Clock)
      returns (ghost sent: Notification)
      requires Valid() && now.Valid()
      modifies this`attachments, this`useFlash, this`buttons, out
      ensures Valid() && fresh(sent)
      ensures sent.channel == channel && sent.recipient == recipient
      ensures sent.files == old(attachments) && sent.isFlash == old(useFlash)
      ensures sent.buttons == if HasButtons(old(buttons)) then old(buttons) else None
      ensures attachments == [] && !useFlash
      ensures buttons == if HasButtons(old(buttons)) then None else old(buttons)
      ensures out.lines == old(out.lines) + old(PendingLines())
                           + WarningLines(Stamped(now, message), MaxLength(channel))
                           + sent.SendLines(Take(Stamped(now, message), MaxLength(channel)))
    {
      var n := CreateNotification(recipient);
      Configure(n);
      var prepared := "[" + FormatClock(now) + "] " + message;
      var validated := ValidateMessage(prepared, MaxLength(n.channel));
      n.Send(validated);
      sent := n;
    }
  }
}
