# Mailtrap client — Dafny model

A model of a small e-mail client built over the .NET SMTP transport. Two classes make up the
core:

- `MailtrapMessage`: holds one outbound e-mail. It has a sender, a recipient, a subject, a text
  body, an HTML body and a list of attachments. The sender and recipient setters reject null
  before they store anything. The subject reads as `""` while it is null.
- `MailtrapClient`: sends a message. It owns one SMTP transport handle, configured at
  construction with a host, a port, credentials and SSL; the host and port have defaults. `Send`
  runs in three steps:
  1. It validates its inputs: a missing transport handle fails first, then a null message.
  2. It maps the message onto a transport request.
  3. It makes the transport call between one acquire and one release of the client's lock.

Files:

- `wrappers.dfy`: `Option`, which stands for C# null, and `Result` and `Outcome`, which stand
  for a return value or a thrown exception.
- `platform.dfy`: the .NET collaborators, cut down to the state the client uses:
  - `MailAddress` and `NetworkCredential` as plain values that nothing inspects;
  - `Attachment` as a value carrying a name, a media type and bytes, none of which is inspected;
  - `MailMessage` (the transport request) as a value;
  - `SmtpClient` as a class whose `sent` log counts transport calls. Its `Create` has the transport's port check, and its constructor trims the host (`Trim`, white space as `char.IsWhiteSpace` defines it) and turns port 0 into the SMTP default port 25;
  - `SemaphoreSlim` as a class with a permit count and an acquisition counter;
  - the exceptions that can reach a caller.
- `mailtrap_message.dfy`: module `MailtrapMessages`, the message class.
- `mailtrap_client.dfy`: module `MailtrapClients`, the client class, plus two client-side
  methods.

How the model handles things the source does implicitly:

- A C# constructor can throw, but a Dafny constructor cannot fail. So each C# constructor is a
  static method that returns a `Result`: `Create`, `Parse` and `CreateFull` for the message,
  and `Create` for the client. Each one makes the checks first: the null checks, the address
  parsing and the transport's port check. Once they pass, it calls a Dafny constructor that
  only stores fields, and that constructor requires what the checks established.
- The network is a parameter. `network: Outcome<Exception>` says what the transport does on
  this call: `Pass` if it delivers the message, `Fail(e)` if it raises `e`.
- The address parser of the string constructor is also a parameter, `parse`. It is a function
  that may fail. It receives every non-null address string.
- Each transport call records, in two ghost logs of the transport, which semaphore the caller
  named as its guard and how many permits that semaphore had free at that moment. So the
  contracts can state that the call happens while the client's own lock is held.

Two behaviours of the source that a reader might not expect:

- The body is `Html ?? Text`
  (src/AndriiKlym.Mailtrap.Client/AndriiKlym.Mailtrap.Client/MailtrapClient.cs:122). So an
  empty HTML body replaces a present text body, while `IsBodyHtml` stays false (line 123).
- `_disposeSmtpClient` (line 23) is never assigned. So it is always false, and `Dispose`
  never releases the transport.

## Model

| member | source | states |
|---|---|---|
| `MailtrapMessages.MailtrapMessage.Subject` | src/AndriiKlym.Mailtrap.Client/AndriiKlym.Mailtrap.Client/Models/MailtrapMessage.cs:63-68 | the subject reads as `""` when the stored subject is null, and as the stored string otherwise |
| `MailtrapMessages.MailtrapMessage.constructor` | src/AndriiKlym.Mailtrap.Client/AndriiKlym.Mailtrap.Client/Models/MailtrapMessage.cs:126-136 | the stores of the constructors once their checks have passed: the new message holds exactly the given sender, recipient, subject, text, HTML and attachments, and its subject reads as the given one with null as `""` |
| `MailtrapMessages.MailtrapMessage.Create` | src/AndriiKlym.Mailtrap.Client/AndriiKlym.Mailtrap.Client/Models/MailtrapMessage.cs:101-105 | a null sender throws ArgumentNullException before the recipient is examined; a null recipient throws next; otherwise the result is a fresh message with these addresses, a null text, HTML and attachment list, and a subject that reads `""` |
| `MailtrapMessages.MailtrapMessage.Parse` | src/AndriiKlym.Mailtrap.Client/AndriiKlym.Mailtrap.Client/Models/MailtrapMessage.cs:112-115 | the sender string is turned into an address first: null throws ArgumentNullException("address"), and otherwise the parser's error is thrown; then the recipient string the same way; when both succeed, the message holds the two parsed addresses and nothing else |
| `MailtrapMessages.MailtrapMessage.CreateFull` | src/AndriiKlym.Mailtrap.Client/AndriiKlym.Mailtrap.Client/Models/MailtrapMessage.cs:126-136 | subject, text, HTML and attachments default to null; the chained two-address constructor rejects a null sender, then a null recipient, first; otherwise the message reads back every argument exactly, with a null subject as `""` |
| `MailtrapMessages.MailtrapMessage.SetFrom` | src/AndriiKlym.Mailtrap.Client/AndriiKlym.Mailtrap.Client/Models/MailtrapMessage.cs:35-39 | null throws ArgumentNullException and leaves every field unchanged; any address becomes the sender, and no other field changes |
| `MailtrapMessages.MailtrapMessage.SetTo` | src/AndriiKlym.Mailtrap.Client/AndriiKlym.Mailtrap.Client/Models/MailtrapMessage.cs:52-56 | null throws ArgumentNullException and leaves every field unchanged; any address becomes the recipient, and no other field changes |
| `MailtrapMessages.MailtrapMessage.SetSubject` | src/AndriiKlym.Mailtrap.Client/AndriiKlym.Mailtrap.Client/Models/MailtrapMessage.cs:69-72 | only the subject changes; a null subject then reads as `""` |
| `MailtrapMessages.MailtrapMessage.SetText` | src/AndriiKlym.Mailtrap.Client/AndriiKlym.Mailtrap.Client/Models/MailtrapMessage.cs:81 | only the text body changes, to the given value |
| `MailtrapMessages.MailtrapMessage.SetHtml` | src/AndriiKlym.Mailtrap.Client/AndriiKlym.Mailtrap.Client/Models/MailtrapMessage.cs:89 | only the HTML body changes, to the given value |
| `MailtrapMessages.MailtrapMessage.SetAttachments` | src/AndriiKlym.Mailtrap.Client/AndriiKlym.Mailtrap.Client/Models/MailtrapMessage.cs:94 | only the attachment list changes, to the given value |
| `MailtrapClients.SelectBody` | src/AndriiKlym.Mailtrap.Client/AndriiKlym.Mailtrap.Client/MailtrapClient.cs:122 | the body is the HTML body whenever it is non-null, even when empty, and the text body otherwise; it is null only when both are |
| `MailtrapClients.IsBodyHtml` | src/AndriiKlym.Mailtrap.Client/AndriiKlym.Mailtrap.Client/MailtrapClient.cs:123 | the flag is set iff the HTML body is non-null and non-empty; a set flag means the body is that HTML; an empty HTML body gives an empty body with the flag clear |
| `MailtrapClients.MailtrapClient.constructor` | src/AndriiKlym.Mailtrap.Client/AndriiKlym.Mailtrap.Client/MailtrapClient.cs:43-52 | the store once the port check has passed: a fresh transport for the given host with surrounding white space trimmed and for the given port, port 0 becoming 25, with the given user name and password, SSL on and nothing sent; the lock is a free binary semaphore; the client does not own the transport |
| `MailtrapClients.MailtrapClient.Create` | src/AndriiKlym.Mailtrap.Client/AndriiKlym.Mailtrap.Client/MailtrapClient.cs:23-52 | host and port default to "sandbox.smtp.mailtrap.io" and 2525; a negative port is refused by the transport with ArgumentOutOfRangeException("port"); otherwise a fresh client with a fresh transport for that host with surrounding white space trimmed and for that port, port 0 becoming 25, the given credentials, SSL on, nothing sent, a free lock, and no ownership of the transport |
| `MailtrapClients.MailtrapClient.Dispose` | src/AndriiKlym.Mailtrap.Client/AndriiKlym.Mailtrap.Client/MailtrapClient.cs:57-63 | the transport is disposed when the client owns it, and left untouched otherwise |
| `MailtrapClients.DisposeKeepsTransport` | src/AndriiKlym.Mailtrap.Client/AndriiKlym.Mailtrap.Client/MailtrapClient.cs:23-63 | the ownership flag is never set, so disposing of a constructed client never touches its transport |
| `MailtrapClients.MailtrapClient.ValidateParams` | src/AndriiKlym.Mailtrap.Client/AndriiKlym.Mailtrap.Client/MailtrapClient.cs:102-108 | validation passes iff the transport exists and the message is non-null; a missing transport is reported first, with InvalidOperationException, and a null message second, with ArgumentNullException("message") |
| `MailtrapClients.MailtrapClient.PrepareMailMessage` | src/AndriiKlym.Mailtrap.Client/AndriiKlym.Mailtrap.Client/MailtrapClient.cs:115-132 | a subject (null read as `""`) holding CR or LF is refused by the request's `Subject` setter with ArgumentException; otherwise the request copies sender, recipient and subject; its body is the HTML body when non-null and the text body otherwise; its HTML flag is set iff the HTML body is non-empty; its attachments are the message's list element for element and in order, or none when the list is null |
| `MailtrapClients.MailtrapClient.Send` | src/AndriiKlym.Mailtrap.Client/AndriiKlym.Mailtrap.Client/MailtrapClient.cs:69-76 | if validation fails, or the request cannot be prepared, that exception is thrown and neither the lock nor the transport changes; otherwise the prepared request gets exactly one transport call, made while the client's own lock has its one permit taken, under exactly one lock acquisition; the transport's outcome, error included, is returned unchanged; the lock is free afterwards |
| `MailtrapClients.MailtrapClient.SendMailMessage` | src/AndriiKlym.Mailtrap.Client/AndriiKlym.Mailtrap.Client/MailtrapClient.cs:82-94 | the lock is taken once, the transport gets exactly one call, guarded by the client's own lock while none of its permits is free, and the lock is released again on both outcomes of the transport; its outcome is returned as it is |
| `MailtrapClients.SendAfterTransportFailure` | src/AndriiKlym.Mailtrap.Client/AndriiKlym.Mailtrap.Client/MailtrapClient.cs:84-93 | a send whose transport raised returns that exception unchanged and leaves the client valid with its lock free, so the next send on the same client reaches the transport again (and passes when the network delivers) |

## Left out

- RegisterDIContainer.cs is not part of this model. It only registers instances with a dependency container.
- IMailtrapClient.cs is not part of this model. It only declares the interface that `Send` implements.
- The logger calls are left out. They have no effect on any result.
- Asynchrony and concurrency are left out: tasks, waiting on the semaphore, fairness, and
  non-overlap between concurrent callers. Only the one-caller acquire/release discipline
  around a transport call is kept. `SemaphoreSlim.WaitAsync` is modelled only for a free
  permit, because a wait needs a second caller.
- The SMTP conversation of `SmtpClient.SendMailAsync` is left out. Its outcome is the
  parameter `network`, and its call is recorded in the transport's `sent` log.
- The grammar of MailAddress parsing is left out. A null address string is refused with
  ArgumentNullException("address"). Every other string goes to the parameter `parse`, which
  can fail, and the model says nothing about what it accepts. The platform's refusal of an
  empty string is one of the failures `parse` may return.
- Attachments are values that nothing inspects. Their streams and content types are not modelled.
- MailtrapMessages.MailtrapMessage.SetAttachments does not model aliasing. The source stores
  the caller's `List<Attachment>` by reference, so the caller can still add to or remove from
  that list, and `PrepareMailMessage` then sends the changed list. The model stores a
  sequence value, so what it sends is the list as it was assigned. The same holds for the
  lists passed to `CreateFull`.
- MailtrapClients.MailtrapClient.PrepareMailMessage does not model a null element inside the
  attachment list. The platform's attachment collection would refuse it with an
  ArgumentNullException. Attachments are non-null values here.
- A null address reaches the address-taking constructors as the `None` case of the static
  methods `Create` and `CreateFull`. The stored fields can never hold null.
- `MailMessage` is modelled as a value, not as the library's mutable object. Its recipient
  collection holds the one address the client passes. Of its property setters, only the
  subject's line-break check is modelled. Any defaulting its getters do (such as a null body
  reading as `""`) is library behaviour and is not modelled.
- MailtrapClients.MailtrapClient.constructor requires a non-negative port. The negative-port
  case of the C# constructor is MailtrapClients.MailtrapClient.Create, which throws there as
  the platform transport does.
- MailtrapClients.MailtrapClient.Dispose does not model the NullReferenceException that the
  source would throw if the client owned a missing transport. The constructor always creates
  the transport and never sets ownership, so that case cannot occur.
- SemaphoreSlim's constructor does not model the exception for an initial count above the
  maximum. The client always creates the semaphore with both counts equal to 1.
