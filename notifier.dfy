/**
 * `alert` and the request shape of `kodi_request`: which JSON-RPC calls are
 * posted to the Kodi host, in what order, with what parameters.
 *
 * Reachability of the host (`host_is_up`, a socket connect) is an input, and
 * a request is the value `kodi_request` would post. `Alert` is the plan when
 * every call returns; `AlertAsWritten` adds the host's replies and the
 * credentials, and shows which of them make `alert` raise part-way.
 */
module Notifier {

  /** The JSON values that occur in the parameters the program sends. */
  datatype Json = JString(str: string) | JInt(num: int)

  /** One HTTP POST of a JSON-RPC request object. */
  datatype Request = Request(
    url: string,
    jsonrpc: string,
    methodName: string,
    params: map<string, Json>,
    id: int
  )

  const ShowNotification := "GUI.ShowNotification"
  const ExecuteAddon := "Addons.ExecuteAddon"
  /** Milliseconds Kodi shows the notification for. */
  const DisplayTime := 2000

  /** `http://<host>:<port>/jsonrpc`: the host, then after a colon the port, between fixed affixes. */
  function Endpoint(host: string, port: string): (url: string)
    ensures |url| == |host| + |port| + 16
    ensures url[..7] == "http://" && url[7..7 + |host|] == host && url[7 + |host|] == ':'
    ensures url[8 + |host|..8 + |host| + |port|] == port && url[8 + |host| + |port|..] == "/jsonrpc"
  {
    "http://" + host + ":" + port + "/jsonrpc"
  }

  /**
   * A request object as section 4 of the JSON-RPC 2.0 specification asks
   * for one that expects a response: version "2.0", a method name outside
   * the reserved "rpc." prefix, structured params and an id.
   */
  predicate WellFormed(r: Request)
  {
    r.jsonrpc == "2.0" && r.methodName != [] && !("rpc." <= r.methodName)
  }

  /** The request `kodi_request(method, params)` posts. */
  function KodiRequest(host: string, port: string, methodName: string, params: map<string, Json>): (r: Request)
    requires methodName != [] && !("rpc." <= methodName)
    ensures WellFormed(r) && r.url == Endpoint(host, port)
    ensures r.methodName == methodName && r.params == params && r.id == 1
  {
    Request(Endpoint(host, port), "2.0", methodName, params, 1)
  }

  function NotificationParams(title: string, message: string): map<string, Json>
  {
    map["title" := JString(title), "message" := JString(message), "displaytime" := JInt(DisplayTime)]
  }

  function AddonParams(addonId: string): map<string, Json>
  {
    map["addonid" := JString(addonId)]
  }

  /** How many requests in `plan` call `methodName`. */
  function CountMethod(plan: seq<Request>, methodName: string): nat
  {
    if plan == [] then 0
    else CountMethod(plan[..|plan| - 1], methodName) + (if plan[|plan| - 1].methodName == methodName then 1 else 0)
  }

  /**
   * `alert(title, message)`: nothing when the host is down; otherwise a
   * notification when both texts are non-empty, then the addon call.
   */
  function Alert(hostUp: bool, host: string, port: string, addonId: string, title: string, message: string): (plan: seq<Request>)
    ensures !hostUp ==> plan == []
    ensures hostUp ==> |plan| > 0 && plan[|plan| - 1].methodName == ExecuteAddon &&
                       plan[|plan| - 1].params == AddonParams(addonId)
    ensures hostUp ==> |plan| == (if title != "" && message != "" then 2 else 1)
    ensures |plan| == 2 ==> plan[0].methodName == ShowNotification &&
                            plan[0].params == NotificationParams(title, message)
    ensures forall i :: 0 <= i < |plan| ==>
              WellFormed(plan[i]) && plan[i].url == Endpoint(host, port) && plan[i].id == 1
  {
    if !hostUp then []
    else
      assert ShowNotification[0] != 'r' && ExecuteAddon[0] != 'r';
      var notify := if title != "" && message != ""
                    then [KodiRequest(host, port, ShowNotification, NotificationParams(title, message))]
                    else [];
      notify + [KodiRequest(host, port, ExecuteAddon, AddonParams(addonId))]
  }

  /**
   * A reachable host gets exactly one addon call, and exactly one
   * notification when both texts are non-empty; an unreachable one gets none.
   */
  lemma AlertCounts(hostUp: bool, host: string, port: string, addonId: string, title: string, message: string)
    ensures CountMethod(Alert(hostUp, host, port, addonId, title, message), ExecuteAddon) ==
            (if hostUp then 1 else 0)
    ensures CountMethod(Alert(hostUp, host, port, addonId, title, message), ShowNotification) ==
            (if hostUp && title != "" && message != "" then 1 else 0)
  {
    var plan := Alert(hostUp, host, port, addonId, title, message);
    assert ShowNotification != ExecuteAddon by { assert ShowNotification[0] != ExecuteAddon[0]; }
    if |plan| == 2 {
      assert plan[..1][..0] == [];
      forall m: string ensures CountMethod(plan, m) ==
        (if plan[0].methodName == m then 1 else 0) + (if plan[1].methodName == m then 1 else 0)
      {
        assert CountMethod(plan[..1], m) == (if plan[0].methodName == m then 1 else 0);
      }
    } else if |plan| == 1 {
      assert plan[..0] == [];
    }
  }

  // ---------------------------------------------------------------------
  // What the host answers, and what `alert` does with it as written
  // ---------------------------------------------------------------------

  /** The host's answer to one POST, as `kodi_request` sees it. */
  datatype Reply =
    | NoReply                  // requests.post raises (refused, timeout): caught, returns False
    | NotJson                  // the body is not JSON: response.json() raises
    | NoResult                 // a JSON object without "result", e.g. a JSON-RPC error: KeyError
    | Answer(result: string)   // the call returns result == "OK"

  /** `response.json()` or `data['result']` raises on this reply. */
  predicate Unreadable(reply: Reply)
  {
    reply.NotJson? || reply.NoResult?
  }

  /**
   * The requests `alert` has attempted so far, and whether an exception has
   * left it. A request counts as posted once `requests.post` is called, even
   * when the call then fails and nothing reaches the host (`NoReply`).
   */
  datatype AlertRun = AlertRun(posted: seq<Request>, raised: bool)

  /**
   * One `kodi_request` as written, after `run`. With both credentials set
   * it raises NameError before posting; otherwise it posts, and raises when
   * the reply cannot be read, since the reading is outside the `try`.
   * Once something has raised, `alert` does nothing more.
   */
  function PostAsWritten(run: AlertRun, credentials: bool, r: Request, reply: Reply): (next: AlertRun)
    ensures run.raised ==> next == run
    ensures !run.raised ==> next.posted == run.posted + (if credentials then [] else [r])
    ensures !run.raised ==> (next.raised <==> credentials || Unreadable(reply))
  {
    if run.raised then run
    else if credentials then AlertRun(run.posted, true)
    else AlertRun(run.posted + [r], Unreadable(reply))
  }

  /**
   * `alert(title, message)` as written, given whether both a username and a
   * password are configured and the replies to the notification and to the
   * addon call.
   */
  function AlertAsWritten(hostUp: bool, host: string, port: string, addonId: string, title: string, message: string,
                          credentials: bool, notifyReply: Reply, addonReply: Reply): (run: AlertRun)
    ensures !hostUp ==> run == AlertRun([], false)
    ensures run.posted <= Alert(hostUp, host, port, addonId, title, message)
    ensures hostUp ==>
              (run.raised <==> credentials || (title != "" && message != "" && Unreadable(notifyReply)) ||
                               Unreadable(addonReply))
    ensures hostUp ==>
              |run.posted| == (if credentials then 0
                               else if title != "" && message != "" && Unreadable(notifyReply) then 1
                               else |Alert(hostUp, host, port, addonId, title, message)|)
  {
    if !hostUp then AlertRun([], false)
    else
      assert ShowNotification[0] != 'r' && ExecuteAddon[0] != 'r';
      var start := AlertRun([], false);
      var notified :=
        if title != "" && message != ""
        then PostAsWritten(start, credentials,
               KodiRequest(host, port, ShowNotification, NotificationParams(title, message)), notifyReply)
        else start;
      PostAsWritten(notified, credentials, KodiRequest(host, port, ExecuteAddon, AddonParams(addonId)), addonReply)
  }

  /** When no credentials are set and every reply is readable, `alert` posts its whole plan and returns. */
  lemma AsWrittenFollowsPlan(hostUp: bool, host: string, port: string, addonId: string, title: string, message: string,
                             notifyReply: Reply, addonReply: Reply)
    requires !Unreadable(notifyReply) && !Unreadable(addonReply)
    ensures AlertAsWritten(hostUp, host, port, addonId, title, message, false, notifyReply, addonReply) ==
            AlertRun(Alert(hostUp, host, port, addonId, title, message), false)
  {
  }

  /**
   * An unreadable reply to the notification (an HTTP error page, a JSON-RPC
   * error object) makes `alert` raise before the addon call is posted.
   */
  lemma UnreadableReplyCancelsAddon(host: string, port: string, addonId: string, title: string, message: string,
                                    notifyReply: Reply, addonReply: Reply)
    requires title != "" && message != ""
    requires Unreadable(notifyReply)
    ensures var run := AlertAsWritten(true, host, port, addonId, title, message, false, notifyReply, addonReply);
            run.raised && |run.posted| == 1 && run.posted[0].methodName == ShowNotification &&
            CountMethod(run.posted, ExecuteAddon) == 0
  {
    var run := AlertAsWritten(true, host, port, addonId, title, message, false, notifyReply, addonReply);
    var notification := KodiRequest(host, port, ShowNotification, NotificationParams(title, message));
    assert run == AlertRun([notification], true);
    assert ShowNotification != ExecuteAddon by { assert ShowNotification[0] != ExecuteAddon[0]; }
    assert [notification][..0] == [];
  }

  /**
   * A readable reply to the notification (or no notification) and an
   * unreadable one to the addon call: the whole plan has been posted when
   * `alert` raises.
   */
  lemma WholePlanThenRaise(host: string, port: string, addonId: string, title: string, message: string,
                           notifyReply: Reply, addonReply: Reply)
    requires !Unreadable(notifyReply) && Unreadable(addonReply)
    ensures AlertAsWritten(true, host, port, addonId, title, message, false, notifyReply, addonReply) ==
            AlertRun(Alert(true, host, port, addonId, title, message), true)
  {
  }

  /** With both credentials set, `alert` raises before posting anything to a reachable host. */
  lemma CredentialsPostNothing(host: string, port: string, addonId: string, title: string, message: string,
                               notifyReply: Reply, addonReply: Reply)
    ensures AlertAsWritten(true, host, port, addonId, title, message, true, notifyReply, addonReply) ==
            AlertRun([], true)
  {
  }

  /**
   * `kodi_request` with every failure of the call caught, as its `try`
   * around the POST evidently intends: it posts what the as-written call
   * posts without credentials, and never raises, whatever the reply.
   */
  function PostGuarded(run: AlertRun, r: Request, reply: Reply): (next: AlertRun)
    ensures !run.raised ==> next.posted == PostAsWritten(run, false, r, reply).posted && !next.raised
  {
    AlertRun(run.posted + [r], run.raised)
  }

  /**
   * `alert` built on `PostGuarded`: whatever the host answers, it posts the
   * whole plan of `Alert` and returns.
   */
  function AlertGuarded(hostUp: bool, host: string, port: string, addonId: string, title: string, message: string,
                        notifyReply: Reply, addonReply: Reply): (run: AlertRun)
    ensures run == AlertRun(Alert(hostUp, host, port, addonId, title, message), false)
  {
    if !hostUp then AlertRun([], false)
    else
      assert ShowNotification[0] != 'r' && ExecuteAddon[0] != 'r';
      var start := AlertRun([], false);
      var notified :=
        if title != "" && message != ""
        then PostGuarded(start, KodiRequest(host, port, ShowNotification, NotificationParams(title, message)), notifyReply)
        else start;
      PostGuarded(notified, KodiRequest(host, port, ExecuteAddon, AddonParams(addonId)), addonReply)
  }

  /** Whatever the host answers, a reachable host gets exactly one addon call from the guarded `alert`. */
  lemma GuardedAlertPostsAddon(hostUp: bool, host: string, port: string, addonId: string, title: string, message: string,
                               notifyReply: Reply, addonReply: Reply)
    ensures CountMethod(AlertGuarded(hostUp, host, port, addonId, title, message, notifyReply, addonReply).posted,
                        ExecuteAddon) == (if hostUp then 1 else 0)
  {
    AlertCounts(hostUp, host, port, addonId, title, message);
  }

}
