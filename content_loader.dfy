/** The page loader of the client script (assets/javascript/content-loader.js): the
    URL of a page's content partial, and the fetch of that partial with its error
    classification, user alert and rethrow. */
module ContentLoader {
  import opened Wrappers
  import opened Strings
  import opened Web
  import NavigationRoute

  const ContentSuffix := ".content.html"

  /** `getContentPartialPath`: a directory path gets `index.html`, then a final
      `.html` becomes the content suffix. */
  function GetContentPartialPath(pagePath: string): (r: string)
  {
    var p := if EndsWith(pagePath, "/") then pagePath + "index.html" else pagePath;
    if EndsWith(p, ".html") then p[..|p| - 5] + ContentSuffix else p
  }

  /** A directory path maps to itself followed by `index.content.html`. */
  lemma ContentPartialOfDirectory(pagePath: string)
    requires EndsWith(pagePath, "/")
    ensures GetContentPartialPath(pagePath) == pagePath + "index.content.html"
  {
    var p := pagePath + "index.html";
    EndsWithAppend(pagePath, "index.html");
    assert EndsWith(p, ".html") by { assert p[|p| - 5..] == "index.html"[5..]; }
    assert p[..|p| - 5] == pagePath + "index";
  }

  /** A path ending in `.html` has that one final `.html` replaced; everything before
      it, earlier `.html` included, is kept. */
  lemma ContentPartialOfHtml(stem: string)
    ensures GetContentPartialPath(stem + ".html") == stem + ".content.html"
  {
    var p := stem + ".html";
    EndsWithAppend(stem, ".html");
    assert !EndsWith(p, "/") by { assert p[|p| - 1] == 'l'; }
  }

  /** A path ending in neither `/` nor `.html` is returned unchanged. */
  lemma ContentPartialOther(pagePath: string)
    requires !EndsWith(pagePath, "/") && !EndsWith(pagePath, ".html")
    ensures GetContentPartialPath(pagePath) == pagePath
  {
  }

  /** For a directory path the client fetches exactly the fragment key the navigation
      composer of the worker reads. */
  lemma ContentPartialIsNavigationKey(pagePath: string)
    requires EndsWith(pagePath, "/")
    ensures GetContentPartialPath(pagePath) == NavigationRoute.ContentKey(pagePath)
  {
    ContentPartialOfDirectory(pagePath);
  }

  /** The alert `alerts.add` is given. */
  datatype Alert = Alert(title: string, body: string)

  const AlertTitle := "Oops, there was an error making your request"
  const OfflineMessage := "Check your network connection to ensure you're still online."

  /** The message of the error thrown for a response that is not `ok`. */
  function NonOkMessage(status: nat, statusText: string): string {
    "Response: (" + NatToString(status) + ") " + statusText
  }

  /** The alert for a caught error: the connection hint for a `TypeError`, the error's
      own message otherwise. */
  function AlertFor(err: JsError): (a: Alert)
    ensures a.title == AlertTitle
    ensures err.TypeError? ==> a.body == OfflineMessage
    ensures err.Error? ==> a.body == err.message
  {
    Alert(AlertTitle, if err.TypeError? then OfflineMessage else err.message)
  }

  /** The message of a non-ok response determines its status and status text. */
  lemma NonOkMessageInjective(s1: nat, t1: string, s2: nat, t2: string)
    requires NonOkMessage(s1, t1) == NonOkMessage(s2, t2)
    ensures s1 == s2 && t1 == t2
  {
    var d1, d2 := NatToString(s1), NatToString(s2);
    var m := NonOkMessage(s1, t1);
    assert m == "Response: (" + d1 + ") " + t1;
    assert m == "Response: (" + d2 + ") " + t2;
    assert m[11 + |d1|] == ')';
    assert m[11 + |d2|] == ')';
    assert |d1| == |d2|;
    assert d1 == m[11..11 + |d1|];
    assert d2 == m[11..11 + |d2|];
    ParseNatToString(s1);
    ParseNatToString(s2);
    assert t1 == m[13 + |d1|..];
    assert t2 == m[13 + |d2|..];
  }

  /** `fetchPage(path)`: fetches the content partial; an ok response settles with its
      text and raises no alert; a non-ok response or a network failure raises an alert
      describing the error and rethrows that same error. */
  method FetchPage(path: string, net: Network) returns (content: Outcome<string>, alert: Option<Alert>)
    ensures var url := GetContentPartialPath(path);
      content.Fulfilled? <==> url in net && net[url].Ok()
    ensures content.Fulfilled? ==>
      content.value == net[GetContentPartialPath(path)].body && alert == None
    ensures content.Rejected? ==> alert == Some(AlertFor(content.error))
    ensures GetContentPartialPath(path) !in net ==>
      content == Rejected(TypeError(FailedToFetch)) && alert == Some(Alert(AlertTitle, OfflineMessage))
    ensures var url := GetContentPartialPath(path);
      url in net && !net[url].Ok() ==>
        (content == Rejected(Error(NonOkMessage(net[url].status, net[url].statusText))) &&
         alert == Some(Alert(AlertTitle, NonOkMessage(net[url].status, net[url].statusText))))
  {
    var response := Fetch(net, GetContentPartialPath(path));
    var err: JsError;
    if response.Fulfilled? {
      if response.value.Ok() {
        content, alert := Fulfilled(response.value.body), None;
        return;
      }
      err := Error(NonOkMessage(response.value.status, response.value.statusText));
    } else {
      err := response.error;
    }
    alert := Some(AlertFor(err));
    content := Rejected(err);
  }
}
