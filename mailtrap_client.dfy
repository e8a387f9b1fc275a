/** The client: validates a message, maps it onto a transport request and hands it to the
    SMTP transport while holding the client's lock. */
module MailtrapClients {
  import opened Wrappers
  import opened Platform
  import opened MailtrapMessages

  const DefaultHost: string := "sandbox.smtp.mailtrap.io"
  const DefaultPort: int := 2525

  /** The transmitted body: the HTML body when it is not null, the text body otherwise. */
  function SelectBody(text: Option<string>, html: Option<string>): (body: Option<string>)
    ensures html.Some? ==> body == html
    ensures html.None? ==> body == text
    ensures body.None? <==> html.None? && text.None?
  {
    if html.Some? then html else text
  }

  /** The HTML flag: set exactly when the HTML body is neither null nor empty. The flag
      thus implies that the body is that HTML, but an empty HTML body still replaces
      the text body while the flag stays clear. */
  function IsBodyHtml(text: Option<string>, html: Option<string>): (isHtml: bool)
    ensures isHtml <==> html.Some? && html.value != ""
    ensures isHtml ==> SelectBody(text, html) == html
    ensures html == Some("") ==> !isHtml && SelectBody(text, html) == Some("")
  {
    !(html.None? || html.value == "")
  }

  /** The attachments the request receives: the message's list when it is neither null nor
      empty, and none otherwise. */
  function AttachmentsToCopy(attachments: Option<seq<Attachment>>): seq<Attachment>
  {
    if attachments.Some? && |attachments.value| > 0 then attachments.value else []
  }

  /** The transport request built from a message, or the exception the request's
      `Subject` setter raises. */
  function Prepared(m: MessageState): Result<MailMessage, Exception>
  {
    if HasCrOrLf(SubjectOf(m.subject)) then Failure(ArgumentException(SubjectFormatMessage))
    else Success(MailMessage(m.from, m.to, SubjectOf(m.subject), SelectBody(m.text, m.html),
                             IsBodyHtml(m.text, m.html), AttachmentsToCopy(m.attachments)))
  }

  class MailtrapClient {
    const client: SmtpClient?
    const disposeSmtpClient: bool
    const lock: SemaphoreSlim

    /** Between calls the lock is free: a binary semaphore with its one permit available.
        No constructor gives the client ownership of its transport. */
    ghost predicate Valid()
      reads this, lock
    {
      lock.maxCount == 1 && lock.currentCount == 1 && !disposeSmtpClient
    }

    /** Stores a transport for `host` and `port` with the given credentials and SSL on.
        Only ports the platform accepts reach it; `Create` is the source's constructor. */
    constructor (username: string, password: string, host: string, port: int)
      requires port >= 0
      ensures Valid() && fresh(lock) && lock.acquisitions == 0
      ensures client != null && fresh(client)
      ensures client.host == Trim(host)
      ensures port == 0 ==> client.port == SmtpDefaultPort
      ensures port != 0 ==> client.port == port
      ensures client.credentials == Some(NetworkCredential(username, password))
      ensures client.enableSsl
      ensures client.sent == [] && client.guardsAtCall == [] && client.freePermitsAtCall == [] && !client.disposed
      ensures !disposeSmtpClient
    {
      var smtp := new SmtpClient(host, port);
      smtp.credentials := Some(NetworkCredential(username, password));
      smtp.enableSsl := true;
      client := smtp;
      // The ownership flag is a readonly field that no constructor assigns, so it keeps
      // the default value of its type.
      disposeSmtpClient := false;
      lock := new SemaphoreSlim(1, 1);
    }

    /** `new MailtrapClient(username, password, host, port)`: the host and port default to
        the sandbox host and port 2525; the transport refuses a negative port; otherwise the
        client holds a new transport for the trimmed host and the port (port 0 meaning 25),
        with the given credentials and SSL always on, a free lock, and no ownership of the
        transport. */
    static method Create(username: string, password: string, host: string := DefaultHost, port: int := DefaultPort)
      returns (r: Result<MailtrapClient, Exception>)
      ensures port < 0 ==> r == Failure(ArgumentOutOfRangeException("port"))
      ensures port >= 0 ==>
                r.Success? && fresh(r.value) && fresh(r.value.lock) &&
                r.value.Valid() && r.value.lock.acquisitions == 0 &&
                r.value.client != null && fresh(r.value.client) &&
                r.value.client.host == Trim(host) &&
                r.value.client.port == (if port == 0 then SmtpDefaultPort else port) &&
                r.value.client.credentials == Some(NetworkCredential(username, password)) &&
                r.value.client.enableSsl &&
                r.value.client.sent == [] && r.value.client.guardsAtCall == [] &&
                r.value.client.freePermitsAtCall == [] && !r.value.client.disposed &&
                !r.value.disposeSmtpClient
    {
      if port < 0 {
        return Failure(ArgumentOutOfRangeException("port"));
      }
      var c := new MailtrapClient(username, password, host, port);
      r := Success(c);
    }

    /** Releases the transport only when the client owns it. */
    method Dispose()
      modifies client
      ensures disposeSmtpClient && client != null ==> client.disposed && client.sent == old(client.sent)
      ensures !disposeSmtpClient && client != null ==> unchanged(client)
    {
      if disposeSmtpClient && client != null {
        client.Dispose();
      }
    }

    /** The checks made before anything else, in order: a missing transport, then a null
        message. */
    function ValidateParams(message: MailtrapMessage?): (r: Outcome<Exception>)
      reads this
      ensures r == Pass <==> client != null && message != null
      ensures client == null ==> r == Fail(InvalidOperationException("SMTP client is not initialized."))
      ensures client != null && message == null ==> r == Fail(ArgumentNullException("message"))
    {
      if client == null then Fail(InvalidOperationException("SMTP client is not initialized."))
      else if message == null then Fail(ArgumentNullException("message"))
      else Pass
    }

    /** Maps a message onto a new transport request. The subject is set first, and the
        request refuses one holding a line break. Otherwise sender, recipient and subject are
        copied, the body and its HTML flag are chosen from the HTML and text bodies, and a
        non-empty attachment list is appended element by element, in order. */
    method PrepareMailMessage(message: MailtrapMessage) returns (r: Result<MailMessage, Exception>)
      ensures HasCrOrLf(message.Subject()) ==> r == Failure(ArgumentException(SubjectFormatMessage))
      ensures !HasCrOrLf(message.Subject()) ==>
                r.Success? &&
                r.value.from == message.from && r.value.to == message.to &&
                r.value.subject == message.Subject() &&
                (message.html.Some? ==> r.value.body == message.html) &&
                (message.html.None? ==> r.value.body == message.text) &&
                (r.value.isBodyHtml <==> message.html.Some? && message.html.value != "") &&
                (message.attachments.Some? ==> r.value.attachments == message.attachments.value) &&
                (message.attachments.None? ==> r.value.attachments == [])
      ensures r == Prepared(message.State())
    {
      var mailMessage := NewMailMessage(message.from, message.to);
      var withSubject := WithSubject(mailMessage, message.Subject());
      if withSubject.Failure? {
        return Failure(withSubject.error);
      }
      mailMessage := withSubject.value;
      mailMessage := mailMessage.(body := SelectBody(message.text, message.html));
      mailMessage := mailMessage.(isBodyHtml := IsBodyHtml(message.text, message.html));
      if message.attachments.Some? && |message.attachments.value| > 0 {
        var attachments := message.attachments.value;
        var i := 0;
        while i < |attachments|
          invariant 0 <= i <= |attachments|
          invariant mailMessage == Prepared(message.State()).value.(attachments := attachments[..i])
        {
          mailMessage := mailMessage.(attachments := mailMessage.attachments + [attachments[i]]);
          i := i + 1;
        }
        assert attachments[..i] == attachments;
      }
      r := Success(mailMessage);
    }

    /** The public `Send`. Validation comes first, then the request is prepared; when
        either fails, its exception is thrown and neither the lock nor the transport is
        touched. Otherwise the transport gets exactly one call with the prepared request, made
        while the lock's one permit is taken, and its outcome is returned as it is. The lock
        is free afterwards. */
    method Send(message: MailtrapMessage?, network: Outcome<Exception>) returns (r: Outcome<Exception>)
      requires Valid()
      modifies lock, client
      ensures Valid()
      ensures ValidateParams(message).Fail? ==>
                r == ValidateParams(message) && unchanged(lock) && (client != null ==> unchanged(client))
      ensures ValidateParams(message).Pass? && Prepared(message.State()).Failure? ==>
                r == Fail(Prepared(message.State()).error) && unchanged(lock) && unchanged(client)
      ensures ValidateParams(message).Pass? && Prepared(message.State()).Success? ==>
                r == network &&
                client.sent == old(client.sent) + [Prepared(message.State()).value] &&
                client.guardsAtCall == old(client.guardsAtCall) + [lock] &&
                client.freePermitsAtCall == old(client.freePermitsAtCall) + [0] &&
                client.credentials == old(client.credentials) && client.enableSsl == old(client.enableSsl) &&
                client.disposed == old(client.disposed) &&
                lock.acquisitions == old(lock.acquisitions) + 1
    {
      r := ValidateParams(message);
      if r.Fail? {
        return;
      }
      var mailMessage := PrepareMailMessage(message);
      if mailMessage.Failure? {
        return Fail(mailMessage.error);
      }
      r := SendMailMessage(mailMessage.value, network);
    }

    /** The private `Send`: the transport call runs inside one acquire / release of the
        lock (it is made with no permit free), and the release happens whether the
        transport succeeded or threw. */
    method SendMailMessage(mailMessage: MailMessage, network: Outcome<Exception>) returns (r: Outcome<Exception>)
      requires Valid() && client != null
      modifies lock, client
      ensures Valid()
      ensures r == network
      ensures client.sent == old(client.sent) + [mailMessage]
      ensures client.guardsAtCall == old(client.guardsAtCall) + [lock]
      ensures client.freePermitsAtCall == old(client.freePermitsAtCall) + [0]
      ensures client.credentials == old(client.credentials) && client.enableSsl == old(client.enableSsl)
      ensures client.disposed == old(client.disposed)
      ensures lock.acquisitions == old(lock.acquisitions) + 1
    {
      lock.WaitAsync();
      r := client.SendMailAsync(mailMessage, network, lock);
      // The finally block: the release runs on both outcomes of the transport call.
      var released := lock.Release();
      assert released == Pass;
    }
  }

  /** A transport failure propagates unchanged and leaves the client valid, its lock free,
      so the next send of the same message on the same client reaches the transport again;
      with a network that delivers, that second send passes. */
  method SendAfterTransportFailure(c: MailtrapClient, message: MailtrapMessage, failure: Exception)
    returns (first: Outcome<Exception>, second: Outcome<Exception>)
    requires c.Valid() && c.client != null && Prepared(message.State()).Success?
    modifies c.lock, c.client
    ensures c.Valid()
    ensures first == Fail(failure) && second == Pass
    ensures c.client.sent == old(c.client.sent) + [Prepared(message.State()).value, Prepared(message.State()).value]
  {
    first := c.Send(message, Fail(failure));
    second := c.Send(message, Pass);
  }

  /** A client as its constructor leaves it does not own its transport, so disposing of it
      leaves the transport exactly as it was. */
  method DisposeKeepsTransport(c: MailtrapClient)
    requires c.Valid() && c.client != null
    modifies c.client
    ensures unchanged(c.client)
  {
    c.Dispose();
  }
}
