/** The email dispatcher (src/services/emailService.ts): the credential gate,
    the template parameters, and the return/throw contract of
    `sendBriefingEmail`. The transport call and the locale date string are
    parameters. */
module Email {
  import opened Wrappers
  import opened Types
  import opened Text

  /** The three email credentials read from the environment. */
  datatype Config = Config(serviceId: Option<string>, templateId: Option<string>, publicKey: Option<string>)

  datatype TemplateParams = TemplateParams(
    toEmail: string, toName: string, subject: string, date: string, message: string, sources: string)

  /** One call of the transport: `send(serviceId, templateId, params, publicKey)`. */
  datatype SendRequest = SendRequest(serviceId: string, templateId: string, params: TemplateParams, publicKey: string)

  /** What the transport does with a request. */
  datatype Transport = Delivered | TransportFailed(reason: string)

  /** What `sendBriefingEmail` does for its caller: resolve with a boolean or throw. */
  datatype EmailResult = Returned(sent: bool) | Threw(reason: string)

  /** The result together with every request handed to the transport. */
  datatype EmailTrace = EmailTrace(result: EmailResult, requests: seq<SendRequest>)

  const Recipient: string := "ambujkr8@gmail.com"
  const RecipientName: string := "Ambuj"
  const SubjectPrefix: string := "Daily Briefing: "

  predicate Configured(cfg: Config)
  {
    Truthy(cfg.serviceId) && Truthy(cfg.templateId) && Truthy(cfg.publicKey)
  }

  /** One source rendered as `${title}: ${uri}`. */
  function SourceLine(s: GroundingSource): (r: string)
    ensures |r| == |s.title| + 2 + |s.uri|
    ensures r[..|s.title|] == s.title && r[|s.title| + 2..] == s.uri
    ensures r[|s.title|..|s.title| + 2] == ": "
  {
    s.title + ": " + s.uri
  }

  function SourceLines(sources: seq<GroundingSource>): (r: seq<string>)
    ensures |r| == |sources|
    ensures forall i :: 0 <= i < |r| ==> r[i] == SourceLine(sources[i])
  {
    if |sources| == 0 then [] else [SourceLine(sources[0])] + SourceLines(sources[1..])
  }

  /** The `sources` template parameter: the rendered sources joined by newlines. */
  function SourcesParam(sources: seq<GroundingSource>): (r: string)
    ensures |r| == 0 <==> |sources| == 0
    ensures |sources| > 0 ==> StartsWith(r, SourceLine(sources[0]))
  {
    Join(SourceLines(sources), '\n')
  }

  /** The template parameters built for a briefing on a given locale date. */
  function BuildParams(data: BriefingData, localeDate: string): (p: TemplateParams)
    ensures p.toEmail == Recipient && p.toName == RecipientName
    ensures p.message == data.summary && p.date == localeDate
    ensures |p.subject| == |SubjectPrefix| + |localeDate|
    ensures p.subject[..|SubjectPrefix|] == SubjectPrefix && p.subject[|SubjectPrefix|..] == localeDate
    ensures p.sources == SourcesParam(data.sources)
  {
    TemplateParams(Recipient, RecipientName, SubjectPrefix + localeDate, localeDate,
                   data.summary, SourcesParam(data.sources))
  }

  /** `sendBriefingEmail`: skip with `false` when a credential is missing,
      otherwise issue exactly one send and either resolve `true` or rethrow
      the transport's failure. */
  function SendBriefingEmail(data: BriefingData, cfg: Config, localeDate: string, transport: Transport): (t: EmailTrace)
    ensures !Configured(cfg) ==> t == EmailTrace(Returned(false), [])
    ensures Configured(cfg) ==>
              && |t.requests| == 1
              && t.requests[0] == SendRequest(cfg.serviceId.value, cfg.templateId.value,
                                              BuildParams(data, localeDate), cfg.publicKey.value)
    ensures Configured(cfg) && transport.Delivered? ==> t.result == Returned(true)
    ensures Configured(cfg) && transport.TransportFailed? ==> t.result == Threw(transport.reason)
    ensures t.result == Returned(true) <==> Configured(cfg) && transport.Delivered?
  {
    if !Configured(cfg) then EmailTrace(Returned(false), [])
    else
      var request := SendRequest(cfg.serviceId.value, cfg.templateId.value,
                                 BuildParams(data, localeDate), cfg.publicKey.value);
      match transport
      case Delivered => EmailTrace(Returned(true), [request])
      case TransportFailed(reason) => EmailTrace(Threw(reason), [request])
  }

  /** The `sources` parameter is empty exactly when there are no sources. */
  lemma SourcesParamEmpty(sources: seq<GroundingSource>)
    ensures SourcesParam(sources) == "" <==> |sources| == 0
  {
  }

  /** Splitting the `sources` parameter on newlines gives back one line per
      source, in order, provided no title or uri itself holds a newline. */
  lemma {:induction false} SourcesParamLines(sources: seq<GroundingSource>)
    requires |sources| > 0
    requires forall i :: 0 <= i < |sources| ==> '\n' !in sources[i].title && '\n' !in sources[i].uri
    ensures Split(SourcesParam(sources), '\n') == SourceLines(sources)
  {
    var lines := SourceLines(sources);
    forall i | 0 <= i < |lines| ensures '\n' !in lines[i] {
      var l := lines[i];
      var s := sources[i];
      forall k | 0 <= k < |l| ensures l[k] != '\n' {
        if k < |s.title| {
          assert l[k] == l[..|s.title|][k];
        } else if k >= |s.title| + 2 {
          assert l[k] == l[|s.title| + 2..][k - |s.title| - 2];
        } else {
          assert l == s.title + ": " + s.uri;
        }
      }
    }
    SplitJoin(lines, '\n');
  }
}
