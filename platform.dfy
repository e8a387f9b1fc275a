/** The .NET collaborators the client relies on (System.Net.Mail, System.Net,
    System.Threading), reduced to the state the client reads and changes.
    Address grammar, attachment streams and the SMTP conversation are not modelled. */
module Platform {
  import opened Wrappers

  /** The exceptions that can reach a caller of the client. */
  datatype Exception =
    | ArgumentNullException(paramName: string)
    | ArgumentException(message: string)
    | ArgumentOutOfRangeException(paramName: string)
    | InvalidOperationException(message: string)
    | FormatException(message: string)
    | SmtpException(statusCode: int, message: string)
    | SemaphoreFullException

  /** A parsed e-mail address (System.Net.Mail.MailAddress); its parts are opaque here. */
  datatype MailAddress = MailAddress(address: string, displayName: string)

  /** A file attached to a message. Its name, media type and bytes are carried along and
      never inspected. */
  datatype Attachment = Attachment(name: string, mediaType: string, content: seq<bv8>)

  /** A user name and password pair (System.Net.NetworkCredential). */
  datatype NetworkCredential = NetworkCredential(userName: string, password: string)

  /** The transport-native request (System.Net.Mail.MailMessage) with the properties the
      client sets. `body` keeps the value that was assigned, null included. */
  datatype MailMessage = MailMessage(
    from: MailAddress,
    to: MailAddress,
    subject: string,
    body: Option<string>,
    isBodyHtml: bool,
    attachments: seq<Attachment>)

  /** A fresh request, as `new MailMessage(from, to)` leaves it. */
  function NewMailMessage(from: MailAddress, to: MailAddress): MailMessage
  {
    MailMessage(from, to, "", None, false, [])
  }

  const SubjectFormatMessage: string := "The specified string is not in the form required for a subject."

  predicate HasCrOrLf(s: string)
  {
    '\r' in s || '\n' in s
  }

  /** The `Subject` setter of MailMessage: a subject holding a carriage return or a line
      feed is refused with an ArgumentException, and the request keeps its old subject. */
  function WithSubject(m: MailMessage, subject: string): Result<MailMessage, Exception>
  {
    if HasCrOrLf(subject) then Failure(ArgumentException(SubjectFormatMessage))
    else Success(m.(subject := subject))
  }

  /** `char.IsWhiteSpace`: the characters of Unicode's White_Space property. */
  predicate IsWhiteSpace(c: char)
  {
    ('\U{0009}' <= c <= '\U{000D}') || c == ' ' || c == '\U{0085}' || c == '\U{00A0}' || c == '\U{1680}' ||
    ('\U{2000}' <= c <= '\U{200A}') || c == '\U{2028}' || c == '\U{2029}' || c == '\U{202F}' ||
    c == '\U{205F}' || c == '\U{3000}'
  }

  /** `s.TrimStart()`: drops the leading white space and nothing else. */
  function TrimStart(s: string): (t: string)
    ensures |t| <= |s| && t == s[|s| - |t|..]
    ensures forall i :: 0 <= i < |s| - |t| ==> IsWhiteSpace(s[i])
    ensures t == [] || !IsWhiteSpace(t[0])
  {
    if |s| > 0 && IsWhiteSpace(s[0]) then TrimStart(s[1..]) else s
  }

  /** `s.TrimEnd()`: drops the trailing white space and nothing else. */
  function TrimEnd(s: string): (t: string)
    ensures |t| <= |s| && t == s[..|t|]
    ensures forall i :: |t| <= i < |s| ==> IsWhiteSpace(s[i])
    ensures t == [] || !IsWhiteSpace(t[|t| - 1])
  {
    if |s| > 0 && IsWhiteSpace(s[|s| - 1]) then TrimEnd(s[..|s| - 1]) else s
  }

  /** `s.Trim()`: neither end of the result is white space; `TrimStart` and `TrimEnd` state
      that only white space is dropped. */
  function Trim(s: string): (t: string)
    ensures t == [] || (!IsWhiteSpace(t[0]) && !IsWhiteSpace(t[|t| - 1]))
    ensures |t| <= |s|
  {
    TrimEnd(TrimStart(s))
  }

  /** The port SmtpClient uses when it is given port 0. */
  const SmtpDefaultPort: int := 25

  /** An SMTP transport handle (System.Net.Mail.SmtpClient). Every send it is asked to make
      is appended to `sent`, so `|sent|` counts transport calls. Two ghost logs record, for
      each call, which semaphore the caller named as its guard (`guardsAtCall`) and how
      many permits that semaphore had free at that moment (`freePermitsAtCall`). */
  class SmtpClient {
    const host: string
    const port: int
    var credentials: Option<NetworkCredential>
    var enableSsl: bool
    var sent: seq<MailMessage>
    var disposed: bool
    ghost var guardsAtCall: seq<SemaphoreSlim>
    ghost var freePermitsAtCall: seq<nat>

    /** Only the non-negative ports the platform accepts reach this constructor; `Create`
        below is the platform constructor with its ArgumentOutOfRangeException. The host is
        trimmed, and port 0 stands for the SMTP default port. */
    constructor (host: string, port: int)
      requires port >= 0
      ensures this.host == Trim(host)
      ensures port == 0 ==> this.port == SmtpDefaultPort
      ensures port != 0 ==> this.port == port
      ensures credentials == None && !enableSsl
      ensures sent == [] && guardsAtCall == [] && freePermitsAtCall == [] && !disposed
    {
      this.host := Trim(host);
      this.port := if port == 0 then SmtpDefaultPort else port;
      credentials := None;
      enableSsl := false;
      sent := [];
      guardsAtCall := [];
      freePermitsAtCall := [];
      disposed := false;
    }

    /** `new SmtpClient(host, port)`: a negative port is refused; otherwise the host is
        trimmed and port 0 becomes port 25. */
    static method Create(host: string, port: int) returns (r: Result<SmtpClient, Exception>)
      ensures port < 0 ==> r == Failure(ArgumentOutOfRangeException("port"))
      ensures port >= 0 ==>
                r.Success? && fresh(r.value) && r.value.host == Trim(host) &&
                r.value.port == (if port == 0 then SmtpDefaultPort else port) &&
                r.value.credentials == None && !r.value.enableSsl &&
                r.value.sent == [] && r.value.guardsAtCall == [] && r.value.freePermitsAtCall == [] &&
                !r.value.disposed
    {
      if port < 0 {
        return Failure(ArgumentOutOfRangeException("port"));
      }
      var c := new SmtpClient(host, port);
      r := Success(c);
    }

    /** One transport call. What the network does with it is the parameter `network`:
        `Pass` for a delivered message, `Fail(e)` for the exception the transport raises.
        `guard` is the semaphore the caller means to hold during the call. */
    method SendMailAsync(message: MailMessage, network: Outcome<Exception>, ghost guard: SemaphoreSlim)
      returns (r: Outcome<Exception>)
      modifies this
      ensures r == network
      ensures sent == old(sent) + [message]
      ensures guardsAtCall == old(guardsAtCall) + [guard]
      ensures freePermitsAtCall == old(freePermitsAtCall) + [guard.currentCount]
      ensures credentials == old(credentials) && enableSsl == old(enableSsl) && disposed == old(disposed)
    {
      sent := sent + [message];
      guardsAtCall := guardsAtCall + [guard];
      freePermitsAtCall := freePermitsAtCall + [guard.currentCount];
      r := network;
    }

    method Dispose()
      modifies this
      ensures disposed
      ensures sent == old(sent) && guardsAtCall == old(guardsAtCall) && freePermitsAtCall == old(freePermitsAtCall)
      ensures credentials == old(credentials) && enableSsl == old(enableSsl)
    {
      disposed := true;
    }
  }

  /** A counting semaphore (System.Threading.SemaphoreSlim). `acquisitions` counts the
      successful waits, so a caller can state whether the lock was ever taken. */
  class SemaphoreSlim {
    var currentCount: nat
    const maxCount: nat
    var acquisitions: nat

    constructor (initialCount: nat, maxCount: nat)
      requires initialCount <= maxCount
      ensures currentCount == initialCount && this.maxCount == maxCount && acquisitions == 0
    {
      currentCount := initialCount;
      this.maxCount := maxCount;
      acquisitions := 0;
    }

    /** Takes a permit. Only the case with a free permit is modelled: waiting for one
        needs a second caller, and concurrency is outside this model. */
    method WaitAsync()
      requires currentCount > 0
      modifies this
      ensures currentCount == old(currentCount) - 1
      ensures acquisitions == old(acquisitions) + 1
    {
      currentCount := currentCount - 1;
      acquisitions := acquisitions + 1;
    }

    /** Returns a permit; releasing past `maxCount` fails. */
    method Release() returns (r: Outcome<Exception>)
      modifies this
      ensures old(currentCount) < maxCount ==> r == Pass && currentCount == old(currentCount) + 1
      ensures old(currentCount) >= maxCount ==> r == Fail(SemaphoreFullException) && currentCount == old(currentCount)
      ensures acquisitions == old(acquisitions)
    {
      if currentCount < maxCount {
        currentCount := currentCount + 1;
        r := Pass;
      } else {
        r := Fail(SemaphoreFullException);
      }
    }
  }
}
