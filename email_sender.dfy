/** EmailNotificationSender: collects the enabled email addresses of the
    contacts, composes one email whose body depends on the vigilance state,
    and hands it to the mail transport, ignoring whatever the transport does. */
module EmailSender {
  import opened Wrappers
  import opened Vigilance

  /** A contact, as far as this sender reads it: `getEnabledEmails()`. */
  datatype Contact = Contact(enabledEmails: seq<string>)

  datatype Coordinates = Coordinates(latitude: real, longitude: real)

  /** A tracker reading: the coordinates (null when unknown) and the
      resolved address text, which only `formatMessage` looks at. */
  datatype LocationAddress = LocationAddress(location: Option<Coordinates>, address: Option<string>)

  /** The formatting collaborators, whose code is not part of this model:
      `FormatUtils.formatRecipients`, `formatSubject`, `formatMessage`, and
      `String.format("%f", x)` for one coordinate. */
  datatype Formatting = Formatting(
    formatRecipients: seq<string> -> string,
    formatSubject: (string, string) -> string,
    formatMessage: (LocationAddress, string) -> string,
    formatCoordinate: real -> string)

  /** What `AccountUtils` reports about the phone's owner. */
  datatype Account = Account(accountName: string, phoneNumber: string, mailAddress: string, customMessage: string)

  /** The arguments of one `GMailSender.sendMail` call. */
  datatype Mail = Mail(mailAddress: string, subject: string, body: string, sender: string, recipients: string)

  /** What the transport does with the mail: deliver it, or throw. */
  datatype Delivery = Delivered | Threw(message: string)

  datatype Attempt = Attempt(mail: Mail, delivery: Delivery)

  const SenderAccount: string := "imnotokandroidapplication@gmail.com"
  const OkMessage: string := "I am OK now"

  /** The enabled emails of all contacts, in contact order, then in each
      contact's own order. */
  function Flatten(contacts: seq<Contact>): (emails: seq<string>) {
    if |contacts| == 0 then []
    else Flatten(contacts[..|contacts| - 1]) + contacts[|contacts| - 1].enabledEmails
  }

  /** The sum of the per-contact counts of enabled emails. */
  function EmailCount(contacts: seq<Contact>): (n: nat) {
    if |contacts| == 0 then 0
    else EmailCount(contacts[..|contacts| - 1]) + |contacts[|contacts| - 1].enabledEmails|
  }

  lemma {:induction false} FlattenLength(contacts: seq<Contact>)
    ensures |Flatten(contacts)| == EmailCount(contacts)
  {
    if |contacts| > 0 {
      FlattenLength(contacts[..|contacts| - 1]);
    }
  }

  /** Flattening follows the contact order: it distributes over concatenation. */
  lemma {:induction false} FlattenAppend(a: seq<Contact>, b: seq<Contact>)
    ensures Flatten(a + b) == Flatten(a) + Flatten(b)
  {
    if |b| == 0 {
      assert a + b == a;
    } else {
      assert (a + b)[..|a + b| - 1] == a + b[..|b| - 1];
      FlattenAppend(a, b[..|b| - 1]);
    }
  }

  /** An address is collected iff some contact has it enabled. */
  lemma {:induction false} FlattenMembership(contacts: seq<Contact>, e: string)
    ensures e in Flatten(contacts) <==> exists i :: 0 <= i < |contacts| && e in contacts[i].enabledEmails
  {
    if |contacts| > 0 {
      var init := contacts[..|contacts| - 1];
      FlattenMembership(init, e);
      if e in Flatten(contacts) && e !in contacts[|contacts| - 1].enabledEmails {
        var i :| 0 <= i < |init| && e in init[i].enabledEmails;
        assert contacts[i] == init[i];
      }
      if exists i :: 0 <= i < |contacts| && e in contacts[i].enabledEmails {
        var i :| 0 <= i < |contacts| && e in contacts[i].enabledEmails;
        if i < |init| {
          assert init[i] == contacts[i];
        }
      }
    }
  }

  /** `getAllContactEmails`: the nested loops that copy every enabled email. */
  method GetAllContactEmails(contacts: seq<Contact>) returns (emails: seq<string>)
    ensures emails == Flatten(contacts)
  {
    emails := [];
    for i := 0 to |contacts|
      invariant emails == Flatten(contacts[..i])
    {
      var contact := contacts[i];
      for j := 0 to |contact.enabledEmails|
        invariant emails == Flatten(contacts[..i]) + contact.enabledEmails[..j]
      {
        emails := emails + [contact.enabledEmails[j]];
      }
      assert contact.enabledEmails[..|contact.enabledEmails|] == contact.enabledEmails;
      assert contacts[..i + 1][..i] == contacts[..i];
    }
    assert contacts[..|contacts|] == contacts;
  }

  const MapQueryPrefix: string := "http://maps.google.com/maps?f=q&source=s_q&hl=en&geocode=&q="
  const MapQuerySuffix: string := "&sspn=0.005055,0.009645&ie=UTF8&z=16"

  /** `getMapUrl`: the Google Maps query for the coordinates. The template's
      four `%f` slots take latitude, longitude, latitude, longitude, so the
      query point (`q`) and the search centre (`sll`) are the same point. */
  function MapUrl(c: Coordinates, formatCoordinate: real -> string): (url: string)
    ensures var point := formatCoordinate(c.latitude) + "," + formatCoordinate(c.longitude);
      && |url| == |MapQueryPrefix| + 2 * |point| + |"&sll="| + |MapQuerySuffix|
      && url[..|MapQueryPrefix|] == MapQueryPrefix
      && url[|MapQueryPrefix|..|MapQueryPrefix| + |point|] == point
      && url[|MapQueryPrefix| + |point|..|MapQueryPrefix| + |point| + 5] == "&sll="
      && url[|MapQueryPrefix| + |point| + 5..|url| - |MapQuerySuffix|] == point
      && url[|url| - |MapQuerySuffix|..] == MapQuerySuffix
  {
    var lat := formatCoordinate(c.latitude);
    var lng := formatCoordinate(c.longitude);
    MapQueryPrefix + lat + "," + lng + "&sll=" + lat + "," + lng + MapQuerySuffix
  }

  /** The body chosen in `sendEmailMessage`: the all-clear text in NORMAL;
      otherwise the formatted location message, followed by a space and the
      map link exactly when coordinates are known. */
  function MessageBody(state: VigilanceState, loc: LocationAddress, customMessage: string, fmt: Formatting): (body: string)
    ensures state == Normal ==> body == OkMessage
    ensures state != Normal ==>
      var m := fmt.formatMessage(loc, customMessage);
      && |m| <= |body| && body[..|m|] == m
      && (|body| == |m| <==> loc.location.None?)
      && (loc.location.Some? ==> body[|m|..] == " " + MapUrl(loc.location.value, fmt.formatCoordinate))
  {
    if state == Normal then OkMessage
    else
      var m := fmt.formatMessage(loc, customMessage);
      if loc.location.Some? then m + " " + MapUrl(loc.location.value, fmt.formatCoordinate) else m
  }

  /** The all-clear email does not depend on the location at all. */
  lemma OkBodyIgnoresLocation(a: LocationAddress, b: LocationAddress, customMessage: string, fmt: Formatting)
    ensures MessageBody(Normal, a, customMessage, fmt) == MessageBody(Normal, b, customMessage, fmt) == OkMessage
  {
  }

  /** `sendEmailMessage`: compose the mail and try the transport; a throw is
      caught and logged, so the caller sees the same return either way. */
  function SendEmailMessage(to: seq<string>, loc: LocationAddress, state: VigilanceState,
                            fmt: Formatting, account: Account, delivery: Delivery): (a: Attempt)
    ensures a.mail.recipients == fmt.formatRecipients(to)
    ensures a.mail.subject == fmt.formatSubject(account.accountName, account.phoneNumber)
    ensures a.mail.body == MessageBody(state, loc, account.customMessage, fmt)
    ensures state == Normal ==> a.mail.body == OkMessage
    ensures a.mail.mailAddress == account.mailAddress && a.mail.sender == SenderAccount
    ensures a.delivery == delivery
  {
    var recipients := fmt.formatRecipients(to);
    var subject := fmt.formatSubject(account.accountName, account.phoneNumber);
    var body := MessageBody(state, loc, account.customMessage, fmt);
    Attempt(Mail(account.mailAddress, subject, body, SenderAccount, recipients), delivery)
  }

  /** `sendNotifications`: one email to all enabled addresses if there is at
      least one, none otherwise; the result is `true` whatever happens. */
  method SendNotifications(contacts: seq<Contact>, loc: LocationAddress, state: VigilanceState,
                           fmt: Formatting, account: Account, delivery: Delivery)
    returns (ok: bool, attempt: Option<Attempt>)
    ensures ok
    ensures attempt.Some? <==> EmailCount(contacts) > 0
    ensures attempt.Some? ==>
      && attempt.value.mail.recipients == fmt.formatRecipients(Flatten(contacts))
      && attempt.value.mail.body == MessageBody(state, loc, account.customMessage, fmt)
      && attempt.value.mail.subject == fmt.formatSubject(account.accountName, account.phoneNumber)
      && attempt.value.mail.mailAddress == account.mailAddress
      && attempt.value.mail.sender == SenderAccount
      && attempt.value.delivery == delivery
  {
    var emailList := GetAllContactEmails(contacts);
    FlattenLength(contacts);
    attempt := None;
    if |emailList| > 0 {
      attempt := Some(SendEmailMessage(emailList, loc, state, fmt, account, delivery));
    }
    ok := true;
  }
}
