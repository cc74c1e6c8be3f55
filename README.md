# Notification pipeline (factory + template method)

A Dafny model of the notification dispatcher in `lab01/lab1.cs`, with the
button-list parser `ParseButtons` of the sending form in `lab01/UI.cs`.

A sender (Email, SMS or Telegram) runs one fixed algorithm in `send_notice`:

1. create a fresh notification of its channel;
2. apply its pending configuration through the `Configure` hook, then clear it;
3. put the time stamp `"[HH:mm:ss] "` in front of the message;
4. cut the result to the channel's maximum length (5000, 160, 4096), with a warning;
5. call the notification's `Send`, which formats the text for its channel.

The configuration is an attachment list (Email), a flash request (SMS) or a button
array (Telegram). It is applied to the next notification only.

How the model is built:

- `text.dfy` (modules `Wrappers`, `Text`): the .NET string operations used.
  These are `string.Join`, `Split(char)`, `Trim()` with the `char.IsWhiteSpace`
  set, and the cut `Substring(0, n)` / LINQ `Take(n)`.
- `notifications.dfy` (modules `Output`, `Notifications`): the console is a
  `Console` object whose `lines` the methods append to. It also holds the channels,
  their maximum lengths, the clock stamp, the HTML, Markdown and flash formatting,
  and the class `Notification`.
- `senders.dfy` (module `Senders`): the class `NotificationSender` with its
  configuration buffers, `Configure`, `ValidateMessage` and `SendNotice`.
- `buttons.dfy` (module `Buttons`): `ParseButtons` as a function, with its lemmas.
- `scenarios.dfy` (module `Scenarios`): two consecutive sends through each branch
  of the form's send handler, from a fresh sender. Each states the console output.
  The Telegram scenario takes the parsed labels as its input rather than the text of
  the buttons box; `Buttons` states what `ParseButtons` makes of that text.

The three notification classes become one class `Notification`, tagged by a
`Channel`. The three sender classes become one class `NotificationSender`, tagged
the same way. Each object holds the fields of every variant. `Valid()` keeps the
fields of the other channels at their initial values. The variant-only methods
(`add_attachment`, `EnableFlashMode`, …) require their channel, as the C# types do.
The console is passed to each object when it is built; it is not a global.
`DateTime.Now` becomes a `Clock` parameter. A null reference becomes `None` where
the C# code tests for null: the Telegram button arrays and the input of
`ParseButtons`.

Telegram's `Configure` clears the buffer only when it is non-null and non-empty
(lab01/lab1.cs:225-229), so an empty, non-null array stays pending for the next send.

## Model

| member | source | states |
|---|---|---|
| `Notifications.MaxLength` | lab01/lab1.cs:22 | The maximum length depends on the channel only (Email 5000, SMS 160, Telegram 4096). Each one leaves room after the 11-character time stamp. |
| `Output.Console.WriteLine` | lab01/lab1.cs:34 | `Console.WriteLine` appends exactly the one line to the console log and changes nothing else. |
| `Notifications.Notification.constructor` | lab01/lab1.cs:8-14 | The recipient is set when the notification is built and is a constant afterwards. A new notification has no attachments, no flash mode and no buttons. |
| `Notifications.Notification.AddAttachment` | lab01/lab1.cs:32-35 | `add_attachment` appends exactly the one file and keeps the earlier ones. It writes one confirmation line. |
| `Notifications.Notification.EnableFlashMode` | lab01/lab1.cs:57-61 | `enable_flash_mode` sets the flash flag and writes its confirmation line. |
| `Notifications.Notification.AddInlineKeyboard` | lab01/lab1.cs:81-84 | `add_inline_keyboard` replaces the buttons. It writes a line listing them joined by a vertical bar with a space on each side. |
| `Notifications.Notification.Send` | lab01/lab1.cs:37-94 | `Send` leaves the notification unchanged and appends `SendLines(message)`. For Email: an attachments line joined with `", "` only when there are files, then the HTML page. For SMS: the text behind `"[FLASH] "` only in flash mode. For Telegram: a buttons line only when buttons are present and non-empty, then `*text*`. |
| `Notifications.HtmlRoundTrip` | lab01/lab1.cs:28-29 | `format_to_html` puts a fixed frame around the text. The text can be read back out of the page. |
| `Notifications.MarkdownRoundTrip` | lab01/lab1.cs:78 | `applay_markdown` wraps the text in `*…*`. The text can be read back out. |
| `Notifications.FlashPrefixIffFlash` | lab01/lab1.cs:65 | For a time-stamped text, the SMS body starts with `"[FLASH] "` if and only if the notification is in flash mode. |
| `Notifications.SmsFlashVisible` | lab01/lab1.cs:63-67 | The same holds for the cut text that `send_notice` hands to an SMS, whatever the message length. |
| `Notifications.FormatClock` | lab01/lab1.cs:122 | The stamp `HH:mm:ss` is eight characters: two-digit hour, minute and second fields, separated by the culture's time separator, here `':'`. |
| `Notifications.ClockRoundTrip` | lab01/lab1.cs:122 | The hour, minute and second can be read back from the stamp. |
| `Notifications.Stamped` | lab01/lab1.cs:122 | The prepared message is 11 characters longer than the message. It starts with `[`, the clock text and `"] "`, followed by the message unchanged. |
| `Notifications.SentTextShape` | lab01/lab1.cs:122-125 | The text handed to `Send` is never longer than the channel's maximum and always starts with `[` and a digit. The cut falls only in the message, never in the stamp. The text differs from the prepared message if and only if the message is longer than the room left after the stamp. |
| `Text.Take` | lab01/lab1.cs:101-109 | `validate_message` returns the prefix of the message whose length is the smaller of the message length and the bound. It returns the message unchanged when it fits. |
| `Text.TakeIdempotent` | lab01/lab1.cs:101-109 | Cutting an already cut message to the same length changes nothing. |
| `Senders.NotificationSender.ValidateMessage` | lab01/lab1.cs:101-109 | The result is the cut message. One warning line is written if and only if the message is longer than the bound. |
| `Senders.NotificationSender.SendNotice` | lab01/lab1.cs:117-126 | `send_notice` creates a fresh notification for the recipient. It carries exactly the configuration that was pending: the queued files in order, the flash request, and the buttons if they were present and non-empty. Afterwards the buffers are cleared; only an empty, non-null button array stays pending. The console receives, in this order: the configuration lines, the warning if the stamped message was cut, and the notification's lines for `Take(Stamped(now, message), MaxLength)`. |
| `Senders.NotificationSender.Configure` | lab01/lab1.cs:143-153 | The hook attaches every queued file in insertion order, then clears the list. An empty list changes nothing. The SMS override (lines 184-191) passes the flash request on and resets it. The Telegram override (lines 223-230) applies a non-null, non-empty array and then nulls it. Nothing else is touched. |
| `Senders.AttachedLines` | lab01/lab1.cs:147-150 | The console lines of the `foreach` in `EmailSender.Configure`: one confirmation line per queued file, in queue order. |
| `Senders.AttachedLinesAppend` | lab01/lab1.cs:147-150 | The lines for a list split in two parts are the lines of the first part followed by those of the second, so the loop extends the log one file at a time. |
| `Senders.NotificationSender.CreateNotification` | lab01/lab1.cs:139 | The factory returns a fresh notification of the sender's own channel for the given recipient, with no extras (also lines 174-177 and 213-216). |
| `Senders.NotificationSender.AddAttachment` | lab01/lab1.cs:141 | `EmailSender.AddAttachment` appends the file to the pending list. |
| `Senders.NotificationSender.EnableFlashMode` | lab01/lab1.cs:179-182 | `SmsSender.EnableFlashMode` sets the pending flash request. |
| `Senders.NotificationSender.AddInlineKeyboard` | lab01/lab1.cs:218-221 | `TelegramSender.AddInlineKeyboard` replaces the pending buttons; it does not append to them. |
| `Senders.NotificationSender.SetSenderIdentity` | lab01/lab1.cs:155-159 | `set_sender_identity` changes only the sender name and writes one confirmation line. |
| `Senders.NotificationSender.EmailSender` | lab01/lab1.cs:134-137 | A new Email sender keeps its name and has nothing pending. |
| `Senders.NotificationSender.SmsSender` | lab01/lab1.cs:169-172 | A new SMS sender keeps its API key and has no flash request. |
| `Senders.NotificationSender.TelegramSender` | lab01/lab1.cs:208-211 | A new Telegram sender keeps its token and has no buttons (null). |
| `Scenarios.SmsFlashThenPlain` | lab01/UI.cs:227-234 | SMS with flash requested and a 200-character message: the flash line, a warning, then the stamped text cut to 160 characters behind `"[FLASH] "`. The next send has no flash prefix, because the request was used up. |
| `Scenarios.EmailAttachmentsThenPlain` | lab01/UI.cs:219-226 | Email with two files queued: one attachment line per file, the line listing both, then the HTML page. The next send lists no attachments. |
| `Scenarios.EmailFirstSend` | lab01/UI.cs:219-224 | The first send of the Email scenario: two attachment lines, the line listing both files, then the HTML page. Afterwards nothing is pending. |
| `Scenarios.TelegramButtonsThenPlain` | lab01/UI.cs:235-243 | Telegram with a non-empty label list, as `ParseButtons` returns it, set as the keyboard: the keyboard line and the buttons line, then `*text*`. The next send has no buttons. |
| `Scenarios.TelegramFirstSend` | lab01/UI.cs:235-241 | The first send of the Telegram scenario: the keyboard line, the buttons line, then `*text*`. Afterwards the pending buttons are null. |
| `Text.IsWhiteSpace` | lab01/UI.cs:256 | `char.IsWhiteSpace`, which `Trim` and `IsNullOrWhiteSpace` use: U+0009 to U+000D, U+0085 and the Unicode space, line and paragraph separators. |
| `Text.Join` | lab01/lab1.cs:41 | `string.Join(sep, parts)` (also lines 83 and 91): the parts with the separator between neighbours. `Text.SplitJoin` and `Text.Split` state that it is the inverse of `Split`. |
| `Text.Trim` | lab01/UI.cs:256 | `Trim()` gives the slice of the input between its leading and its trailing white space. The result is trimmed, and it is empty if and only if the input is all white space. |
| `Text.TrimTrimmed` | lab01/UI.cs:256 | Trimming an already trimmed string leaves it unchanged. |
| `Text.TrimChars` | lab01/UI.cs:256 | Trimming adds no character. |
| `Text.Split` | lab01/UI.cs:255 | `Split(',')` gives at least one field, and no field holds a comma. Joining the fields with the separator gives the input back. |
| `Text.SplitJoin` | lab01/UI.cs:255 | Splitting a join of separator-free parts gives the parts back. |
| `Text.SplitChars` | lab01/UI.cs:255 | Every character of a field comes from the input. |
| `Text.SplitAtSeparator` | lab01/UI.cs:255 | The fields of `s + "," + t` are the fields of `s` followed by the fields of `t`. |
| `Buttons.IsNullOrWhiteSpace` | lab01/UI.cs:254 | `string.IsNullOrWhiteSpace`: a null text, or one whose every character is white space. |
| `Buttons.TrimAll` | lab01/UI.cs:256 | `Select(x => x.Trim())`: each field trimmed, in its original position. |
| `Buttons.NonEmpty` | lab01/UI.cs:257 | `Where(x => x.Length > 0)` keeps only non-empty elements, each taken from its input. |
| `Buttons.NonEmptyAppend` | lab01/UI.cs:257 | The filter keeps the relative order: filtering a concatenation concatenates the filtered parts. |
| `Buttons.LabelsShape` | lab01/UI.cs:255-257 | Every trimmed non-empty field is non-empty, trimmed and free of commas. |
| `Buttons.ParseButtons` | lab01/UI.cs:252-260 | At most 10 buttons come out, each non-empty, trimmed and free of commas. |
| `Buttons.BlankHasNoLabels` | lab01/UI.cs:254 | Blank input has no labels, so the `IsNullOrWhiteSpace` test only short-cuts the pipeline. |
| `Buttons.ParseButtonsIsFirstLabels` | lab01/UI.cs:254-259 | For any non-null input, the result is the first 10 non-empty trimmed fields in input order. Null or blank input gives the empty array. |
| `Buttons.ParseJoinedButtons` | lab01/UI.cs:252-260 | Up to 10 non-empty, trimmed, comma-free labels, joined with commas and parsed, come back unchanged and in order. |
| `Buttons.FieldsAfterTenthIgnored` | lab01/UI.cs:258 | Once the text before a comma holds 10 labels, whatever follows it does not change the result. |
| `Buttons.ParseYesNo` | lab01/UI.cs:24 | The input `"Да, Нет"`, in the shape the box's placeholder suggests, gives the buttons `"Да"` and `"Нет"`: the space after the comma is trimmed away. |

## Left out

- `SmsSender.check_balance` (lab01/lab1.cs:193-199): a floating-point computation that logs one line. It plays no part in sending.
- `TelegramSender.update_webhook` (lab01/lab1.cs:232-235): it only writes one line.
- The form in lab01/UI.cs: `MainForm`, its layout, event wiring, message boxes and file dialogs. These are user-interface code.
- The blank-recipient and blank-message checks in `OnSend` (lab01/UI.cs:199-250). The scenarios model the send branches after those checks.
- `TextBoxWriter` (lab01/UI.cs:262-276): it moves console writes to the UI thread.
- lab01/lab1_no.cs is not part of this model. It is an older copy of the notification classes without senders, and it does not compile.
- The wall clock: `DateTime.Now` is the `Clock` parameter `now` of `SendNotice`.
- Notifications.FormatClock: the `:` of the format `HH:mm:ss` is the current culture's time separator in .NET; the model assumes a culture whose separator is `':'`, as ru-RU and the invariant culture use. The 11-character stamp and its leading `[` and digit hold for any one-character separator.
- String encoding: strings are sequences of characters, not UTF-16 code units.
- Null strings, except where the C# code tests for null (the Telegram button arrays and the input of `ParseButtons`). A null button array passed to `add_inline_keyboard`, which would throw in `string.Join`, is not modelled, because `Configure` never passes one.
- Array identity: the Telegram buttons are modelled as a value. The sender, the notification and the form share one array in C#, but none of them changes it.
- Senders.NotificationSender.Configure: it requires the notification to be of the sender's own channel. The `is` tests in lab01/lab1.cs:145, 186 and 225 are then always true, since `send_notice` passes only its own factory's product.
- Senders.NotificationSender.SendNotice: the notification it creates is returned as a ghost result, so its fields can be stated. In C# it is discarded.
