/** The message value object: sender, recipient, subject, text and HTML bodies and
    attachments of one outbound e-mail. */
module MailtrapMessages {
  import opened Wrappers
  import opened Platform

  /** A snapshot of every field of a MailtrapMessage, used to say what a setter changed. */
  datatype MessageState = MessageState(
    from: MailAddress,
    to: MailAddress,
    subject: Option<string>,
    text: Option<string>,
    html: Option<string>,
    attachments: Option<seq<Attachment>>)

  /** What the `Subject` getter returns for a stored subject: null reads as "". */
  function SubjectOf(stored: Option<string>): string
  {
    stored.GetOr("")
  }

  /** `new MailAddress(address)`: null is refused before the parser sees anything. */
  function NewMailAddress(address: Option<string>, parse: string -> Result<MailAddress, Exception>)
    : Result<MailAddress, Exception>
  {
    if address.None? then Failure(ArgumentNullException("address")) else parse(address.value)
  }

  class MailtrapMessage {
    // `from` and `to` have non-nullable types: no state of the object holds a null address.
    var from: MailAddress
    var to: MailAddress
    var subject: Option<string>
    var text: Option<string>
    var html: Option<string>
    var attachments: Option<seq<Attachment>>

    function State(): MessageState
      reads this
    {
      MessageState(from, to, subject, text, html, attachments)
    }

    /** The `Subject` getter. */
    function Subject(): (s: string)
      reads this
      ensures subject.None? ==> s == ""
      ensures subject.Some? ==> s == subject.value
    {
      SubjectOf(subject)
    }

    /** Stores every field; the three static methods below are the source's constructors
        and call this one once their null checks and address parsing have passed. */
    constructor (from: MailAddress, to: MailAddress, subject: Option<string>, text: Option<string>,
                 html: Option<string>, attachments: Option<seq<Attachment>>)
      ensures State() == MessageState(from, to, subject, text, html, attachments)
      ensures Subject() == SubjectOf(subject)
    {
      this.from := from;
      this.to := to;
      this.subject := subject;
      this.text := text;
      this.html := html;
      this.attachments := attachments;
    }

    /** `new MailtrapMessage(from, to)`: the `From` setter runs first, then the `To` setter,
        and each throws on a null address. Subject, text, HTML and attachments start null. */
    static method Create(from: Option<MailAddress>, to: Option<MailAddress>)
      returns (r: Result<MailtrapMessage, Exception>)
      ensures from.None? ==> r == Failure(ArgumentNullException("value"))
      ensures from.Some? && to.None? ==> r == Failure(ArgumentNullException("value"))
      ensures from.Some? && to.Some? ==>
                r.Success? && fresh(r.value) &&
                r.value.State() == MessageState(from.value, to.value, None, None, None, None) &&
                r.value.Subject() == ""
    {
      if from.None? {
        return Failure(ArgumentNullException("value"));
      }
      if to.None? {
        return Failure(ArgumentNullException("value"));
      }
      var m := new MailtrapMessage(from.value, to.value, None, None, None, None);
      r := Success(m);
    }

    /** `new MailtrapMessage(string from, string to)`: `new MailAddress(from)` runs first,
        then `new MailAddress(to)`, and the first exception is thrown. A null string is
        refused with ArgumentNullException("address"); every other string goes to the
        platform's address parser, the parameter `parse`. */
    static method Parse(from: Option<string>, to: Option<string>, parse: string -> Result<MailAddress, Exception>)
      returns (r: Result<MailtrapMessage, Exception>)
      ensures from.None? ==> r == Failure(ArgumentNullException("address"))
      ensures from.Some? && parse(from.value).Failure? ==> r == Failure(parse(from.value).error)
      ensures from.Some? && parse(from.value).Success? && to.None? ==>
                r == Failure(ArgumentNullException("address"))
      ensures from.Some? && parse(from.value).Success? && to.Some? && parse(to.value).Failure? ==>
                r == Failure(parse(to.value).error)
      ensures from.Some? && parse(from.value).Success? && to.Some? && parse(to.value).Success? ==>
                r.Success? && fresh(r.value) &&
                r.value.State() == MessageState(parse(from.value).value, parse(to.value).value, None, None, None, None)
    {
      var fromAddress := NewMailAddress(from, parse);
      if fromAddress.Failure? {
        return Failure(fromAddress.error);
      }
      var toAddress := NewMailAddress(to, parse);
      if toAddress.Failure? {
        return Failure(toAddress.error);
      }
      r := Create(Some(fromAddress.value), Some(toAddress.value));
    }

    /** The full constructor: it first chains to the two-address constructor (so a null
        address throws before anything else is stored), then stores every argument. */
    static method CreateFull(from: Option<MailAddress>, to: Option<MailAddress>, subject: Option<string> := None,
                             text: Option<string> := None, html: Option<string> := None,
                             attachments: Option<seq<Attachment>> := None)
      returns (r: Result<MailtrapMessage, Exception>)
      ensures from.None? ==> r == Failure(ArgumentNullException("value"))
      ensures from.Some? && to.None? ==> r == Failure(ArgumentNullException("value"))
      ensures from.Some? && to.Some? ==>
                r.Success? && fresh(r.value) &&
                r.value.State() == MessageState(from.value, to.value, subject, text, html, attachments) &&
                r.value.Subject() == SubjectOf(subject)
    {
      var base := Create(from, to);
      if base.Failure? {
        return base;
      }
      var m := base.value;
      m.subject := subject;
      m.text := text;
      m.html := html;
      m.attachments := attachments;
      r := Success(m);
    }

    /** The `From` setter: a null address throws and leaves the message as it was;
        any other address replaces the sender and nothing else. */
    method SetFrom(value: Option<MailAddress>) returns (r: Outcome<Exception>)
      modifies this
      ensures value.None? ==> r == Fail(ArgumentNullException("value")) && State() == old(State())
      ensures value.Some? ==> r == Pass && State() == old(State()).(from := value.value)
    {
      if value.None? {
        return Fail(ArgumentNullException("value"));
      }
      from := value.value;
      r := Pass;
    }

    /** The `To` setter: a null address throws and leaves the message as it was;
        any other address replaces the recipient and nothing else. */
    method SetTo(value: Option<MailAddress>) returns (r: Outcome<Exception>)
      modifies this
      ensures value.None? ==> r == Fail(ArgumentNullException("value")) && State() == old(State())
      ensures value.Some? ==> r == Pass && State() == old(State()).(to := value.value)
    {
      if value.None? {
        return Fail(ArgumentNullException("value"));
      }
      to := value.value;
      r := Pass;
    }

    /** The `Subject` setter accepts null, which then reads back as "". */
    method SetSubject(value: Option<string>)
      modifies this
      ensures State() == old(State()).(subject := value)
      ensures Subject() == SubjectOf(value)
    {
      subject := value;
    }

    method SetText(value: Option<string>)
      modifies this
      ensures State() == old(State()).(text := value)
    {
      text := value;
    }

    method SetHtml(value: Option<string>)
      modifies this
      ensures State() == old(State()).(html := value)
    {
      html := value;
    }

    method SetAttachments(value: Option<seq<Attachment>>)
      modifies this
      ensures State() == old(State()).(attachments := value)
    {
      attachments := value;
    }
  }
}
