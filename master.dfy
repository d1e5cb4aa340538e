/**
 * The front service: every GET request is answered directly (a missing path,
 * the root redirect, a path outside the three accepted prefixes) or handed to
 * the worker as a queue job, and a succeeded job's result is rendered as an
 * HTML page of `<meta>` tags.
 */
module Master {
  import opened Text
  import opened MetadataWorker

  /** An HTTP answer: status code and body. */
  datatype HttpReply = HttpReply(status: nat, body: string)

  /** The payload of a queue job: the request's original path, unchanged. */
  datatype Job = Job(url: string)

  /** What the request handler does with a path. */
  datatype Decision = Answer(reply: HttpReply) | Enqueue(job: Job)

  /** The page served for `/`, which sends the browser to the project's repository. */
  const RedirectPage: string :=
    "<html><head><meta http-equiv=\"refresh\" "
    + "content=\"0; url=https://github.com/Blumlaut/fxfurtrack\" /></head>"
    + "<body>Redirecting to GitHub...</body></html>"

  /** `url.match(/^\/(p|user|index)/)`: a prefix test, not a test of the whole first segment. */
  predicate Allowed(url: string) {
    StartsWith(url, "/p") || StartsWith(url, "/user") || StartsWith(url, "/index")
  }

  /**
   * The request gate, in the handler's order: an empty path is a 400, `/` the
   * redirect page, a path outside the accepted prefixes a 404; every other path
   * becomes a job. The two first answers never shadow a job, because neither
   * `""` nor `/` carries an accepted prefix.
   */
  function Gate(url: string): (d: Decision)
    ensures d.Enqueue? <==> Allowed(url)
    ensures d.Enqueue? ==> d.job == Job(url)
    ensures d.Answer? ==> d.reply.status in {200, 400, 404}
  {
    if url == "" then Answer(HttpReply(400, "URL is required"))
    else if url == "/" then Answer(HttpReply(200, RedirectPage))
    else if !Allowed(url) then Answer(HttpReply(404, "Invalid URL"))
    else Enqueue(Job(url))
  }

  /** One tag: `<meta ATTR="KEY" content="CONTENT">`, with no escaping of either value. */
  function MetaTag(attr: string, m: Meta): string {
    "<meta " + attr + "=\"" + m.key + "\" content=\"" + m.content + "\">"
  }

  /** `tags.map(tag => ...).join('')` */
  function Render(attr: string, ms: seq<Meta>): string {
    if |ms| == 0 then "" else MetaTag(attr, ms[0]) + Render(attr, ms[1..])
  }

  /** The page template around the two tag lists, line by line as the handler writes it. */
  const PageHead: string :=
    "\n"
    + "      <html>\n"
    + "        <head>\n"
    + "          <title>FurTrack</title>\n"
    + "          <meta name=\"theme-color\" content=\"#48166a\">\n"
    + "          "
  const PageMiddle: string := "\n          "
  const PageTail: string :=
    "\n"
    + "          \n"
    + "          <script>\n"
    + "           window.onload = function() {\n"
    + "              // redirect to furtrack with URL \n"
    + "              window.location.href = \"https://furtrack.com\"+window.location.pathname;\n"
    + "           }\n"
    + "          </script>\n"
    + "\n"
    + "          <style>\n"
    + "            body {\n"
    + "              font-family: sans-serif;\n"
    + "              text-align: center;\n"
    + "            }\n"
    + "          </style>\n"
    + "        </head>\n"
    + "        <body>\n"
    + "          <p><i>Redirecting...</i></p>\n"
    + "        </body>\n"
    + "      </html>\n"
    + "    "

  /** The page for a resolved result: Open Graph tags as `property`, Twitter tags as `name`, in that order. */
  function HtmlPage(metadata: seq<Meta>, twitter: seq<Meta>): string {
    PageHead + Render("property", metadata) + PageMiddle + Render("name", twitter) + PageTail
  }

  /** The `succeeded` handler: an error result is a bare 500; anything else is the page, status 200. */
  function OnSucceeded(r: Result): (reply: HttpReply)
    ensures reply.status == 500 <==> r.Error?
    ensures r.Error? ==> reply.body == "Internal Server Error"
  {
    match r
    case Error(_) => HttpReply(500, "Internal Server Error")
    case Resolved(_, metadata, twitter) => HttpReply(200, HtmlPage(metadata, twitter))
  }

  /** The answer to a job's outcome; a failed job has no handler, so the request gets none. */
  function Respond(o: Outcome): (reply: Option<HttpReply>)
    ensures reply.None? <==> o.Failed?
  {
    match o
    case Failed => None
    case Succeeded(r) => Some(OnSucceeded(r))
  }

  /** A request served by a worker whose cache does not hold the path yet. */
  function HandleFresh(url: string, up: Upstream): Option<HttpReply> {
    match Gate(url)
    case Answer(reply) => Some(reply)
    case Enqueue(job) => Respond(Resolve(Normalize(job.url), up).outcome)
  }

  /**
   * One request end to end: the gate, then the worker's job, then the
   * `succeeded` handler. `None` is a request left without an answer.
   */
  method Serve(w: Worker, url: string, up: Upstream) returns (reply: Option<HttpReply>)
    requires w.Valid()
    modifies w
    ensures w.Valid()
    ensures Gate(url).Answer? ==> reply == Some(Gate(url).reply) && w.cache == old(w.cache)
    ensures Gate(url).Enqueue? && Normalize(url) in old(w.cache) ==>
      reply == Respond(Succeeded(old(w.cache)[Normalize(url)].result)) && w.cache == old(w.cache)
    ensures Gate(url).Enqueue? && Normalize(url) in old(w.cache) ==> reply.Some? && reply.value.status == 200
    ensures Gate(url).Enqueue? && Normalize(url) !in old(w.cache) ==> reply == HandleFresh(url, up)
    ensures Gate(url).Enqueue? && Normalize(url) !in old(w.cache) ==>
      var o := Resolve(Normalize(url), up).outcome;
      w.cache == if o.Succeeded? && o.result.Resolved?
                 then old(w.cache)[Normalize(url) := Entry(o.result, CacheTtl)]
                 else old(w.cache)
  {
    var d := Gate(url);
    if d.Answer? {
      return Some(d.reply);
    }
    var outcome, _ := w.Process(d.job.url, up);
    reply := Respond(outcome);
  }
}
