/**
 * The mail relay's request logic: the CORS middleware and the
 * `POST /api/send-charts` handler.
 *
 * The mail transport (its creation and `sendMail`) is a parameter,
 * `transport`, from the mail the handler hands over to what came back or
 * what was thrown. The base64 payload of a data URL is kept as text; its
 * decoding into bytes is not part of this model.
 */
module MailRelay {
  import opened Wrappers
  import opened JsText

  /**
   * A field of the parsed request body. `Other` stands for every value that
   * is not a string (`null`, a number, a boolean, an object, an array),
   * recorded by its truthiness and by how `String(x)` completes: with a
   * text, or by throwing, as it does for a JSON object whose `toString` is
   * not callable or for arrays nested deeper than the call stack allows.
   */
  datatype JsValue = Undefined | Str(s: string) | Other(truthy: bool, text: Completion<string>)

  /** How an expression completes: normally with a value, or by throwing. */
  datatype Completion<T> = Normal(value: T) | Abrupt(thrown: Thrown)

  predicate Truthy(v: JsValue) {
    match v
    case Undefined => false
    case Str(s) => s != ""
    case Other(t, _) => t
  }

  /** `String(v || '')`: a falsy value becomes "" without any conversion. */
  function GivenText(v: JsValue): (r: Completion<string>)
    ensures !Truthy(v) ==> r == Normal("")
    ensures r.Abrupt? <==> v.Other? && v.truthy && v.text.Abrupt?
    ensures r.Abrupt? ==> r == v.text
  {
    if !Truthy(v) then Normal("")
    else match v
      case Str(s) => Normal(s)
      case Other(_, text) => text
      case Undefined => Normal("")
  }

  /**
   * `String(email || '').trim() || MAIL_TO`: the trimmed address when it has
   * any non-blank character, the configured fallback (untrimmed) otherwise;
   * what the conversion threw when it throws.
   */
  function Recipient(email: JsValue, fallback: string): Completion<string> {
    match GivenText(email)
    case Abrupt(e) => Abrupt(e)
    case Normal(given) =>
      var to := Trim(given);
      if to != "" then Normal(to) else Normal(fallback)
  }

  /**
   * The recipient is the trimmed address when it has any non-blank
   * character, with no blank at either end; otherwise it is `MAIL_TO` as
   * configured. It is empty exactly when both are blank or empty. There is
   * no recipient only when `String(email)` throws, which needs a truthy
   * non-string value, and then what it threw is passed on.
   */
  lemma RecipientSpec(email: JsValue, fallback: string)
    ensures Recipient(email, fallback).Abrupt? <==> email.Other? && email.truthy && email.text.Abrupt?
    ensures Recipient(email, fallback).Abrupt? ==> Recipient(email, fallback) == email.text
    ensures GivenText(email).Normal? ==>
      var given := GivenText(email).value; var r := Recipient(email, fallback).value;
      var blank := forall i :: 0 <= i < |given| ==> IsTrimmable(given[i]);
      (!blank ==> r == Trim(given) && r != "" && !IsTrimmable(r[0]) && !IsTrimmable(r[|r| - 1]))
      && (blank ==> r == fallback)
      && (r == "" <==> fallback == "" && blank)
  {
    if GivenText(email).Normal? {
      var given := GivenText(email).value;
      var t := Trim(given);
      TrimEmptyIff(given);
      if t == [] {
        assert Recipient(email, fallback) == Normal(fallback);
      } else {
        assert Recipient(email, fallback) == Normal(t);
      }
    }
  }

  const DataPrefix: string := "data:"
  const Base64Marker: string := ";base64,"
  const DefaultMime: string := "image/png"

  predicate OccursAt(s: string, pat: string, j: nat) {
    j + |pat| <= |s| && s[j..j + |pat|] == pat
  }

  /** The first index at or after `from` where `pat` occurs in `s`. */
  function FindFrom(s: string, pat: string, from: nat): (r: Option<nat>)
    ensures r.Some? ==>
      from <= r.value && OccursAt(s, pat, r.value)
      && forall j :: from <= j < r.value ==> !OccursAt(s, pat, j)
    ensures r.None? ==> forall j :: from <= j ==> !OccursAt(s, pat, j)
    decreases |s| - from
  {
    if from + |pat| > |s| then None
    else if OccursAt(s, pat, from) then Some(from)
    else FindFrom(s, pat, from + 1)
  }

  /**
   * What `/^data:(.*?);base64,(.*)$/` means for `s` with groups `mime` and
   * `payload`: `s` is exactly `data:` + mime + `;base64,` + payload, neither
   * group holds a line terminator (`.` does not match one, and without the
   * `m` flag `^` and `$` are the ends of the input), and the lazy first
   * group stops at the first `;base64,`.
   */
  ghost predicate DataUrlMatch(s: string, mime: string, payload: string) {
    s == DataPrefix + mime + Base64Marker + payload
    && NoLineTerminator(mime) && NoLineTerminator(payload)
    && forall j :: |DataPrefix| <= j < |DataPrefix| + |mime| ==> !OccursAt(s, Base64Marker, j)
  }

  /** The regular-expression match: the two groups, or `None` when `s` does not match. */
  function MatchDataUrl(s: string): Option<(string, string)> {
    if |s| < |DataPrefix| || s[..|DataPrefix|] != DataPrefix || !NoLineTerminator(s[|DataPrefix|..]) then None
    else match FindFrom(s, Base64Marker, |DataPrefix|)
      case None => None
      case Some(i) => Some((s[|DataPrefix|..i], s[i + |Base64Marker|..]))
  }

  /** Every match found is a match of the regular expression. */
  lemma MatchSound(s: string)
    requires MatchDataUrl(s).Some?
    ensures DataUrlMatch(s, MatchDataUrl(s).value.0, MatchDataUrl(s).value.1)
  {
    var i := FindFrom(s, Base64Marker, |DataPrefix|).value;
    var mime, payload := s[|DataPrefix|..i], s[i + |Base64Marker|..];
    var tail := s[|DataPrefix|..];
    assert mime == tail[..i - |DataPrefix|];
    assert payload == tail[i + |Base64Marker| - |DataPrefix|..];
    assert s == s[..|DataPrefix|] + mime + s[i..i + |Base64Marker|] + payload;
  }

  /** Every match of the regular expression is found, with the same groups. */
  lemma MatchComplete(s: string, mime: string, payload: string)
    requires DataUrlMatch(s, mime, payload)
    ensures MatchDataUrl(s) == Some((mime, payload))
  {
    var k := |DataPrefix| + |mime|;
    assert s[..|DataPrefix|] == DataPrefix;
    assert s[k..k + |Base64Marker|] == Base64Marker;
    assert OccursAt(s, Base64Marker, k);
    var tail := s[|DataPrefix|..];
    assert tail == mime + Base64Marker + payload;
    forall i | 0 <= i < |tail| ensures !IsLineTerminator(tail[i]) {
      if i < |mime| {
        assert tail[i] == mime[i];
      } else if i < |mime| + |Base64Marker| {
        assert tail[i] == Base64Marker[i - |mime|];
      } else {
        assert tail[i] == payload[i - |mime| - |Base64Marker|];
      }
    }
    var f := FindFrom(s, Base64Marker, |DataPrefix|);
    assert f == Some(k);
    assert s[|DataPrefix|..k] == mime;
    assert s[k + |Base64Marker|..] == payload;
  }

  /** The data URL a canvas export produces for a mime type and a payload. */
  function DataUrl(mime: string, payload: string): string {
    DataPrefix + mime + Base64Marker + payload
  }

  /** Round trip: a mime type without `;` and without line terminators is read back as written. */
  lemma DataUrlRoundTrip(mime: string, payload: string)
    requires forall i :: 0 <= i < |mime| ==> mime[i] != ';'
    requires NoLineTerminator(mime) && NoLineTerminator(payload)
    ensures MatchDataUrl(DataUrl(mime, payload)) == Some((mime, payload))
  {
    var s := DataUrl(mime, payload);
    forall j | |DataPrefix| <= j < |DataPrefix| + |mime|
      ensures !OccursAt(s, Base64Marker, j)
    {
      assert s[j] == mime[j - |DataPrefix|];
    }
    MatchComplete(s, mime, payload);
  }

  /** One mail attachment; `content` is the still-encoded base64 payload. */
  datatype Attachment = Attachment(filename: string, content: string, contentType: string)

  /** `parseDataUrl(dataUrl, name)`. */
  function ParseDataUrl(dataUrl: JsValue, name: string): (r: Option<Attachment>)
    ensures !dataUrl.Str? || dataUrl.s == "" ==> r.None?
    ensures r.Some? ==> r.value.filename == name + ".png" && r.value.contentType != ""
  {
    if !Truthy(dataUrl) || !dataUrl.Str? then None
    else match MatchDataUrl(dataUrl.s)
      case None => None
      case Some((mime, payload)) =>
        Some(Attachment(name + ".png", payload, if mime == "" then DefaultMime else mime))
  }

  /**
   * `parseDataUrl` accepts exactly the strings the regular expression
   * matches; the content type is the first group, `image/png` when empty,
   * and the content the second group.
   */
  lemma ParseDataUrlIff(s: string, name: string, mime: string, payload: string)
    ensures DataUrlMatch(s, mime, payload) ==>
      ParseDataUrl(Str(s), name)
      == Some(Attachment(name + ".png", payload, if mime == "" then DefaultMime else mime))
    ensures ParseDataUrl(Str(s), name).Some? ==>
      var a := ParseDataUrl(Str(s), name).value;
      exists m :: DataUrlMatch(s, m, a.content)
        && a.contentType == if m == "" then DefaultMime else m
  {
    if DataUrlMatch(s, mime, payload) {
      MatchComplete(s, mime, payload);
    }
    if ParseDataUrl(Str(s), name).Some? {
      MatchSound(s);
    }
  }

  const MonthlyName: string := "monthly-chart"
  const TotalsName: string := "totals-pie-chart"

  function Present(a: Option<Attachment>): seq<Attachment> {
    if a.Some? then [a.value] else []
  }

  /** The list the handler pushes: the monthly chart if it parsed, then the totals chart if it parsed. */
  function ChartAttachments(monthly: JsValue, totals: JsValue): seq<Attachment> {
    Present(ParseDataUrl(monthly, MonthlyName)) + Present(ParseDataUrl(totals, TotalsName))
  }

  /**
   * At most two attachments, only charts that parsed, the monthly chart
   * always first; none at all exactly when neither parsed.
   */
  lemma AttachmentsShape(monthly: JsValue, totals: JsValue)
    ensures var atts := ChartAttachments(monthly, totals);
      |atts| <= 2
      && |atts| == (if ParseDataUrl(monthly, MonthlyName).Some? then 1 else 0)
                   + (if ParseDataUrl(totals, TotalsName).Some? then 1 else 0)
      && (atts == [] <==> ParseDataUrl(monthly, MonthlyName).None? && ParseDataUrl(totals, TotalsName).None?)
      && (ParseDataUrl(monthly, MonthlyName).Some? ==> atts[0] == ParseDataUrl(monthly, MonthlyName).value)
      && (ParseDataUrl(totals, TotalsName).Some? ==> atts[|atts| - 1] == ParseDataUrl(totals, TotalsName).value)
      && (forall a :: a in atts ==> a.filename == MonthlyName + ".png" || a.filename == TotalsName + ".png")
      && (|atts| == 2 ==> atts[0].filename == MonthlyName + ".png" && atts[1].filename == TotalsName + ".png")
      && (ParseDataUrl(monthly, MonthlyName).None? ==> forall a :: a in atts ==> a.filename == TotalsName + ".png")
      && (ParseDataUrl(totals, TotalsName).None? ==> forall a :: a in atts ==> a.filename == MonthlyName + ".png")
  {
  }

  /** The request body; an absent body reads as `{}`. */
  datatype Body = Body(email: JsValue, monthlyChart: JsValue, totalsPieChart: JsValue)

  function BodyOrEmpty(body: Option<Body>): Body {
    if body.Some? then body.value else Body(Undefined, Undefined, Undefined)
  }

  /** `MAIL_FROM` (optional) and `MAIL_TO` (empty when unset). */
  datatype Config = Config(mailFrom: Option<string>, mailToFallback: string)

  datatype Mail = Mail(from: Option<string>, to: string, subject: string, text: string, html: string,
                       attachments: seq<Attachment>)

  const Subject: string := "Bucks2Bar charts"
  const PlainText: string := "Attached are your requested charts."
  const HtmlText: string := "<p>Attached are your requested charts.</p>"

  /** What was thrown: its `message` ("" when missing or empty) and `String(err)`. */
  datatype Thrown = Thrown(message: string, text: string)

  /** What getting the transport and `sendMail` produced: the sent info, or what was thrown. */
  datatype Delivery = Delivered(messageId: string, previewUrl: Option<string>) | Failed(error: Thrown)

  datatype ReplyBody = Failure(error: string) | Success(messageId: string, previewUrl: Option<string>)

  /** A JSON reply: `{ok: false, error}` or `{ok: true, messageId, previewUrl}` with its status. */
  datatype Reply = Reply(status: nat, body: ReplyBody)

  /** `err?.message || String(err)`. */
  function ErrorText(e: Thrown): string {
    if e.message != "" then e.message else e.text
  }

  /** The reply once the mail has been handed to the transport. */
  function DeliveryReply(d: Delivery): (r: Reply)
    ensures r.status == 200 <==> d.Delivered?
    ensures r.status == 500 <==> d.Failed?
    ensures d.Delivered? ==> r.body == Success(d.messageId, d.previewUrl)
    ensures d.Failed? ==> r.body.Failure? && (d.error.message != "" ==> r.body.error == d.error.message)
    ensures d.Failed? && d.error.message == "" ==> r.body == Failure(d.error.text)
  {
    match d
    case Delivered(id, url) => Reply(200, Success(id, url))
    case Failed(e) => Reply(500, Failure(ErrorText(e)))
  }

  /**
   * The `/api/send-charts` handler. It returns the reply it sends and the
   * mail it hands to the transport, if any.
   */
  method HandleSendCharts(body: Option<Body>, config: Config, transport: Mail -> Delivery)
    returns (reply: Reply, sent: Option<Mail>)
    ensures var b := BodyOrEmpty(body);
      var to := Recipient(b.email, config.mailToFallback);
      var atts := ChartAttachments(b.monthlyChart, b.totalsPieChart);
      && (to.Abrupt? ==> reply == Reply(500, Failure(ErrorText(to.thrown))) && sent == None)
      && (to == Normal("") ==> reply == Reply(400, Failure("Email is required")) && sent == None)
      && (to.Normal? && to.value != "" && atts == [] ==>
            reply == Reply(400, Failure("No chart images provided")) && sent == None)
      && (sent.Some? <==> to.Normal? && to.value != "" && atts != [])
      && (sent.Some? ==>
            sent.value == Mail(config.mailFrom, to.value, Subject, PlainText, HtmlText, atts)
            && reply == DeliveryReply(transport(sent.value)))
    ensures reply.status == 200 || reply.status == 400 || reply.status == 500
    ensures reply.status == 200 <==> reply.body.Success?
  {
    var b := BodyOrEmpty(body);
    var recipient := Recipient(b.email, config.mailToFallback);
    if recipient.Abrupt? {
      return Reply(500, Failure(ErrorText(recipient.thrown))), None;
    }
    var to := recipient.value;
    if to == "" {
      return Reply(400, Failure("Email is required")), None;
    }
    var attachments := [];
    var a1 := ParseDataUrl(b.monthlyChart, MonthlyName);
    var a2 := ParseDataUrl(b.totalsPieChart, TotalsName);
    if a1.Some? {
      attachments := attachments + [a1.value];
    }
    if a2.Some? {
      attachments := attachments + [a2.value];
    }
    assert attachments == ChartAttachments(b.monthlyChart, b.totalsPieChart);
    if |attachments| == 0 {
      return Reply(400, Failure("No chart images provided")), None;
    }
    var mail := Mail(config.mailFrom, to, Subject, PlainText, HtmlText, attachments);
    sent := Some(mail);
    reply := DeliveryReply(transport(mail));
  }

  /** The outgoing response as far as the middleware touches it. */
  class Response {
    var headers: map<string, string>
    var status: nat
    var ended: bool

    constructor ()
      ensures headers == map[] && status == 200 && !ended
    {
      headers, status, ended := map[], 200, false;
    }
  }

  /**
   * The CORS middleware: every request gets the three headers; a preflight
   * `OPTIONS` request is answered with 204, anything else goes on down the
   * chain (`next` is true).
   */
  method Cors(requestMethod: string, res: Response) returns (next: bool)
    modifies res
    ensures res.headers == old(res.headers)
      ["Access-Control-Allow-Origin" := "*"]
      ["Access-Control-Allow-Headers" := "Content-Type"]
      ["Access-Control-Allow-Methods" := "GET,POST,OPTIONS"]
    ensures next <==> requestMethod != "OPTIONS"
    ensures !next ==> res.status == 204 && res.ended
    ensures next ==> res.status == old(res.status) && res.ended == old(res.ended)
  {
    res.headers := res.headers["Access-Control-Allow-Origin" := "*"];
    res.headers := res.headers["Access-Control-Allow-Headers" := "Content-Type"];
    res.headers := res.headers["Access-Control-Allow-Methods" := "GET,POST,OPTIONS"];
    if requestMethod == "OPTIONS" {
      res.status, res.ended := 204, true;
      return false;
    }
    next := true;
  }
}
