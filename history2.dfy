/** The `history2` helper of the page script (_partials/scripts/history2.js): a small
    state machine over the record of the current URL. `add` navigates (pushing a history
    entry unless a `popstate` event drove it) and reports page changes to the callback
    registered with `change`; `change` registers that callback by overwriting itself.

    `History2` follows the code as written; `FixedHistory2` keeps the callback in a slot
    of its own, as the code evidently intends. */
module History2 {
  import opened Wrappers
  import opened Web

  /** The record `parseUrl` returns, with the `title` and `state` that `add` sets on it;
      the initial record has neither. */
  datatype Page = Page(url: Url, title: Option<string>, state: Option<string>)

  /** A function handed to `change`, known by an identifier. */
  type Callback = nat

  /** What the property `change` holds: at first the registering method itself, then
      whatever that method was last given. */
  datatype ChangeSlot = Setter | Function(cb: Callback) | NotAFunction(value: Page)

  /** A call of a registered callback: `cb(next, current, popstateEvent)` for a page
      change, or `cb(arg)` when `change(arg)` is called while `cb` is registered. */
  datatype Invocation =
    | PageChange(callee: Callback, next: Page, prev: Page, popstate: bool)
    | ChangeCall(callee: Callback, arg: Callback)

  /** The arguments of a `history.pushState(state, title, url)` call. */
  datatype PushedState = PushedState(state: Option<string>, title: string, url: string)

  const NotAFunctionError := TypeError("this.change is not a function")

  /** Two URLs point at the same page when pathname and query agree; the hash may differ. */
  predicate SamePage(a: Url, b: Url) {
    a.pathname == b.pathname && a.search == b.search
  }

  /** The `history2` object as written, with the closure variable `current`. The browser
      pieces it touches are logs: `pushed` for `pushState` calls, `invocations` for
      callback calls, and `documentTitle`. `parse` stands for `parseUrl`. */
  class History2 {
    const parse: string -> Url
    var current: Page
    var change: ChangeSlot
    var documentTitle: string
    var pushed: seq<PushedState>
    var invocations: seq<Invocation>

    /** The set-up run when the script loads, on a browser with `pushState`. */
    constructor (parse: string -> Url, href: string, documentTitle: string)
      ensures this.parse == parse && current == Page(parse(href), None, None)
      ensures change == Setter && this.documentTitle == documentTitle
      ensures pushed == [] && invocations == []
    {
      this.parse := parse;
      current := Page(parse(href), None, None);
      change := Setter;
      this.documentTitle := documentTitle;
      pushed, invocations := [], [];
    }

    /** `add(url, title, state, popstateEvent)`. The URL of the current record is a no-op.
        Otherwise `pushState` is called unless a popstate event drove the call; for a
        different page a truthy title becomes the document title and `this.change` is
        called with the next record; `current` then becomes the next record. Calling
        `this.change` throws when it holds a record, which leaves `current` as it was. */
    method Add(url: string, title: string, state: Option<string>, popstate: bool) returns (r: Outcome<()>)
      modifies this
      ensures url == old(current.url.href) ==>
        r == Fulfilled(()) && current == old(current) && change == old(change) &&
        documentTitle == old(documentTitle) && pushed == old(pushed) && invocations == old(invocations)
      ensures url != old(current.url.href) ==>
        pushed == old(pushed) + (if popstate then [] else [PushedState(state, title, url)])
      ensures url != old(current.url.href) && SamePage(parse(url), old(current.url)) ==>
        r == Fulfilled(()) && current == Page(parse(url), Some(title), state) &&
        change == old(change) && documentTitle == old(documentTitle) && invocations == old(invocations)
      ensures url != old(current.url.href) && !SamePage(parse(url), old(current.url)) ==>
        documentTitle == (if title != "" then title else old(documentTitle))
      ensures url != old(current.url.href) && !SamePage(parse(url), old(current.url)) && old(change).Setter? ==>
        r == Fulfilled(()) && current == Page(parse(url), Some(title), state) &&
        change == NotAFunction(current) && invocations == old(invocations)
      ensures url != old(current.url.href) && !SamePage(parse(url), old(current.url)) && old(change).Function? ==>
        r == Fulfilled(()) && current == Page(parse(url), Some(title), state) && change == old(change) &&
        invocations == old(invocations) + [PageChange(old(change).cb, current, old(current), popstate)]
      ensures url != old(current.url.href) && !SamePage(parse(url), old(current.url)) && old(change).NotAFunction? ==>
        r == Rejected(NotAFunctionError) && current == old(current) && change == old(change) &&
        invocations == old(invocations)
    {
      if url == current.url.href {
        return Fulfilled(());
      }
      var next := Page(parse(url), Some(title), state);
      if !popstate {
        pushed := pushed + [PushedState(state, title, url)];
      }
      if !SamePage(next.url, current.url) {
        if title != "" {
          documentTitle := title;
        }
        // `this.change` is always truthy, so it is always called
        match change
        case Setter =>
          // the registering method stores its first argument, here the record
          change := NotAFunction(next);
        case Function(cb) =>
          invocations := invocations + [PageChange(cb, next, current, popstate)];
        case NotAFunction(_) =>
          return Rejected(NotAFunctionError);
      }
      current := next;
      r := Fulfilled(());
    }

    /** `change(cb)`, called as `history2.change(cb)`: whatever `this.change` holds is
        called with `cb`. The original method stores `cb`; a registered callback is
        called with `cb` instead; a record throws. */
    method Change(cb: Callback) returns (r: Outcome<()>)
      modifies this
      ensures old(change).Setter? ==> r == Fulfilled(()) && change == Function(cb) && invocations == old(invocations)
      ensures old(change).Function? ==>
        r == Fulfilled(()) && change == old(change) && invocations == old(invocations) + [ChangeCall(old(change).cb, cb)]
      ensures old(change).NotAFunction? ==>
        r == Rejected(NotAFunctionError) && change == old(change) && invocations == old(invocations)
      ensures current == old(current) && documentTitle == old(documentTitle) && pushed == old(pushed)
    {
      match change
      case Setter =>
        change := Function(cb);
        r := Fulfilled(());
      case Function(c) =>
        invocations := invocations + [ChangeCall(c, cb)];
        r := Fulfilled(());
      case NotAFunction(_) =>
        r := Rejected(NotAFunctionError);
    }
  }

  /** A URL parser for the scenarios below: the path is the whole URL. */
  function PathUrl(u: string): Url {
    Url(u, "example.com", u, "", "")
  }

  /** As written, without a registered callback the first page change stores the next
      record in `change`, and the second page change throws a `TypeError`. */
  method UnregisteredSecondPageChangeThrows() returns (r1: Outcome<()>, r2: Outcome<()>)
    ensures r1 == Fulfilled(()) && r2 == Rejected(NotAFunctionError)
  {
    var h := new History2(PathUrl, "/", "Home");
    r1 := h.Add("/about/", "About", None, false);
    r2 := h.Add("/articles/", "Articles", None, false);
  }

  /** As written, a second `change(cb)` does not replace the first callback: it calls the
      first callback with the second as its argument. */
  method SecondRegistrationCallsFirst() returns (calls: seq<Invocation>)
    ensures calls == [ChangeCall(1, 2)]
  {
    var h := new History2(PathUrl, "/", "Home");
    var _ := h.Change(1);
    var _ := h.Change(2);
    calls := h.invocations;
  }

  /** The intended `history2`: the callback has a slot of its own, `change(cb)` only
      fills it, and `add` calls it when one is registered. */
  class FixedHistory2 {
    const parse: string -> Url
    var current: Page
    var callback: Option<Callback>
    var documentTitle: string
    var pushed: seq<PushedState>
    var invocations: seq<Invocation>

    constructor (parse: string -> Url, href: string, documentTitle: string)
      ensures this.parse == parse && current == Page(parse(href), None, None)
      ensures callback == None && this.documentTitle == documentTitle
      ensures pushed == [] && invocations == []
    {
      this.parse := parse;
      current := Page(parse(href), None, None);
      callback := None;
      this.documentTitle := documentTitle;
      pushed, invocations := [], [];
    }

    /** `add` never throws: a new URL always becomes the current record, and the
        callback, if registered, is called exactly for a change of page. */
    method Add(url: string, title: string, state: Option<string>, popstate: bool)
      modifies this`current, this`documentTitle, this`pushed, this`invocations
      ensures url == old(current.url.href) ==>
        current == old(current) && documentTitle == old(documentTitle) &&
        pushed == old(pushed) && invocations == old(invocations)
      ensures url != old(current.url.href) ==>
        current == Page(parse(url), Some(title), state) &&
        pushed == old(pushed) + (if popstate then [] else [PushedState(state, title, url)])
      ensures url != old(current.url.href) && SamePage(parse(url), old(current.url)) ==>
        documentTitle == old(documentTitle) && invocations == old(invocations)
      ensures url != old(current.url.href) && !SamePage(parse(url), old(current.url)) ==>
        documentTitle == (if title != "" then title else old(documentTitle)) &&
        invocations == old(invocations) +
          (if callback.Some? then [PageChange(callback.value, current, old(current), popstate)] else [])
    {
      if url == current.url.href {
        return;
      }
      var next := Page(parse(url), Some(title), state);
      if !popstate {
        pushed := pushed + [PushedState(state, title, url)];
      }
      if !SamePage(next.url, current.url) {
        if title != "" {
          documentTitle := title;
        }
        if callback.Some? {
          invocations := invocations + [PageChange(callback.value, next, current, popstate)];
        }
      }
      current := next;
    }

    /** `change(cb)`: registers `cb`, replacing any earlier callback, and calls nothing. */
    method Change(cb: Callback)
      modifies this`callback
      ensures callback == Some(cb)
    {
      callback := Some(cb);
    }
  }

  /** The scenario of `UnregisteredSecondPageChangeThrows` on the intended helper: both
      page changes go through, and a callback registered afterwards receives the next
      one. */
  method FixedPageChangesGoThrough() returns (cur: Page, calls: seq<Invocation>)
    ensures cur.url == PathUrl("/articles/")
    ensures calls == [PageChange(1, Page(PathUrl("/articles/"), Some("Articles"), None),
                                    Page(PathUrl("/about/"), Some("About"), None), false)]
  {
    var h := new FixedHistory2(PathUrl, "/", "Home");
    h.Add("/about/", "About", None, false);
    h.Change(1);
    h.Add("/articles/", "Articles", None, false);
    cur, calls := h.current, h.invocations;
  }
}
