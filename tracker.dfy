/** One Deliveroo order being tracked: the status formatter, the tracking URL
    built from a sharing link, and the tracker that polls the order status and
    posts every change of message to its Slack channels. */
module Tracking {
  import opened Wrappers
  import Strings
  import Slack
  import Seqs

  /** The root of Deliveroo's order-status API. */
  const ApiRoot: string := "https://order-status.deliveroo.net/api/v2-4"

  /** The tracking URL a tracker gets when statuses are replayed from a backlog. */
  const MockTrackingUrl: string := "[MOCK]"

  // ---------------------------------------------------------------------------
  // The order-status payload

  /** An entry of the payload's `included` list; the first one must be the order. */
  datatype Included = Included(kind: string, restaurantName: string, sharingShortUrl: string, imageUrl: string)

  /** A decoded order-status response: the `data.attributes` of interest and the `included` list. */
  datatype OrderStatus = OrderStatus(uiStatus: string, message: string, etaMessage: Option<string>, included: seq<Included>)

  /** `COMPLETED` and `FAILED` end the tracking. */
  predicate Terminal(uiStatus: string) {
    uiStatus == "COMPLETED" || uiStatus == "FAILED"
  }

  // ---------------------------------------------------------------------------
  // Formatting a status for Slack

  /** Why formatting raised: `included[0]` is missing or not the order, or the
      image URL template does not format. */
  datatype FormatError = NotAnOrder | BadImageTemplate

  /** A Slack update: the plain-text summary (for notifications) and the blocks. */
  datatype Update = Update(summary: string, blocks: seq<Slack.Block>)

  predicate IsOrder(s: OrderStatus) {
    |s.included| >= 1 && s.included[0].kind == "order"
  }

  // The fixed pieces of the update texts.
  const Mention: string := "@here"
  const FailedHead: string := Mention + " :rotating_light: The order from *"
  const FailedMid: string := "* has *FAILED* _("
  const FailedTail: string := ")_"
  const ArrivedTail: string := "* is here, " + "@hungry people " + ":bowl_with_spoon: !"
  const EtaMid: string := "*: "
  const EtaLabel: string := "*ETA*: "

  /** The mrkdwn text of the update, by status. */
  function Text(order: Included, s: OrderStatus): (text: string)
    ensures s.uiStatus == "FAILED" ==> StartsWith(text, Mention)
    ensures s.uiStatus != "FAILED" && s.etaMessage.None? ==>
      |text| >= |ArrivedTail| && text[|text| - |ArrivedTail|..] == ArrivedTail
    ensures s.uiStatus != "FAILED" && s.etaMessage.Some? ==>
      StartsWith(text, "*" + order.restaurantName + EtaMid + s.message + "\n")
  {
    if s.uiStatus == "FAILED" then
      FailedHead + order.restaurantName + FailedMid + s.message + FailedTail + "\n" + order.sharingShortUrl
    else if s.etaMessage.None? then
      "*" + order.restaurantName + ArrivedTail
    else
      "*" + order.restaurantName + EtaMid + s.message + "\n" + EtaLabel + s.etaMessage.value + "\n" + order.sharingShortUrl
  }

  /** The width and height the restaurant preview is rendered at. */
  const PreviewWidth: string := "192"
  const PreviewHeight: string := "108"

  /** `format_slack_status_update`: raises unless `included[0]` is the order
      (checked first) and its image template formats; otherwise one section
      block carrying the text and the preview image, and the text's first
      line as the summary. What the texts say is stated in the lemmas below. */
  function Format(s: OrderStatus): (r: Result<Update, FormatError>)
    ensures r.Ok? <==> IsOrder(s) && Strings.FormatSize(s.included[0].imageUrl, PreviewWidth, PreviewHeight).Some?
    ensures r.Err? && !IsOrder(s) ==> r.error == NotAnOrder
    ensures r.Err? && IsOrder(s) ==> r.error == BadImageTemplate
    ensures r.Ok? ==>
      && |r.value.blocks| == 1
      && r.value.blocks[0].text == Text(s.included[0], s)
      && r.value.blocks[0].imageUrl == Strings.FormatSize(s.included[0].imageUrl, PreviewWidth, PreviewHeight).value
      && r.value.blocks[0].altText == "Restaurant preview"
      && r.value.summary == Strings.Split(r.value.blocks[0].text, '\n')[0]
  {
    if !IsOrder(s) then Err(NotAnOrder)
    else
      var order := s.included[0];
      var text := Text(order, s);
      match Strings.FormatSize(order.imageUrl, PreviewWidth, PreviewHeight)
      case None => Err(BadImageTemplate)
      case Some(url) => Ok(Update(Strings.Split(text, '\n')[0], [Slack.Section(text, url, "Restaurant preview")]))
  }

  /** `part` occurs in `s` at index `i`. */
  predicate PartAt(s: string, part: string, i: int) {
    0 <= i && i + |part| <= |s| && s[i..i + |part|] == part
  }

  ghost predicate Contains(s: string, part: string) {
    exists i :: PartAt(s, part, i)
  }

  lemma ContainsMiddle(a: string, b: string, c: string)
    ensures Contains(a + b + c, b)
  {
    assert PartAt(a + b + c, b, |a|);
  }

  /** The summary is the first line of the text: all of it, or what comes
      before its first line break. */
  lemma FormatSummary(s: OrderStatus)
    requires Format(s).Ok?
    ensures var u := Format(s).value; var text := u.blocks[0].text;
      && '\n' !in u.summary
      && |u.summary| <= |text| && u.summary == text[..|u.summary|]
      && (|u.summary| == |text| || text[|u.summary|] == '\n')
  {
    Strings.SplitHead(Format(s).value.blocks[0].text, '\n');
  }

  /** A failure alerts the channel: the text starts with `@here` and names the
      restaurant and the message. */
  lemma FormatFailed(s: OrderStatus)
    requires Format(s).Ok? && s.uiStatus == "FAILED"
    ensures var text := Format(s).value.blocks[0].text;
      && |text| >= |Mention| && text[..|Mention|] == Mention
      && Contains(text, s.included[0].restaurantName) && Contains(text, s.message)
      && Contains(text, s.included[0].sharingShortUrl)
  {
    var order := s.included[0];
    var name, msg, short := order.restaurantName, s.message, order.sharingShortUrl;
    var text := Format(s).value.blocks[0].text;
    var withName := FailedHead + name;
    var withMsg := withName + FailedMid + msg;
    assert text == withMsg + FailedTail + "\n" + short;
    // the alert
    assert FailedHead[..|Mention|] == Mention;
    StartsWithExtend(FailedHead, name, Mention);
    StartsWithExtend(withName, FailedMid, Mention);
    StartsWithExtend(withName + FailedMid, msg, Mention);
    StartsWithExtend(withMsg, FailedTail, Mention);
    StartsWithExtend(withMsg + FailedTail, "\n", Mention);
    StartsWithExtend(withMsg + FailedTail + "\n", short, Mention);
    // the restaurant
    assert PartAt(withName, name, |FailedHead|);
    ContainsExtend(withName, FailedMid, name);
    ContainsExtend(withName + FailedMid, msg, name);
    ContainsExtend(withMsg, FailedTail, name);
    ContainsExtend(withMsg + FailedTail, "\n", name);
    ContainsExtend(withMsg + FailedTail + "\n", short, name);
    // the message
    assert PartAt(withMsg, msg, |withName + FailedMid|);
    ContainsExtend(withMsg, FailedTail, msg);
    ContainsExtend(withMsg + FailedTail, "\n", msg);
    ContainsExtend(withMsg + FailedTail + "\n", short, msg);
    // the short URL
    assert PartAt(text, short, |withMsg + FailedTail + "\n"|);
  }

  /** `s` starts with `p`. */
  predicate StartsWith(s: string, p: string) {
    |p| <= |s| && s[..|p|] == p
  }

  lemma StartsWithExtend(x: string, y: string, p: string)
    requires StartsWith(x, p)
    ensures StartsWith(x + y, p)
  {
    assert (x + y)[..|p|] == x[..|p|];
  }

  lemma ContainsExtend(x: string, y: string, part: string)
    requires Contains(x, part)
    ensures Contains(x + y, part)
  {
    var i :| PartAt(x, part, i);
    assert (x + y)[i..i + |part|] == x[i..i + |part|];
    assert PartAt(x + y, part, i);
  }

  /** A failure text is two lines, the alert and then the short URL; only the
      alert goes into the summary. */
  lemma FormatFailedLines(s: OrderStatus)
    requires Format(s).Ok? && s.uiStatus == "FAILED"
    requires '\n' !in s.included[0].restaurantName && '\n' !in s.message && '\n' !in s.included[0].sharingShortUrl
    ensures var u := Format(s).value;
      Strings.Split(u.blocks[0].text, '\n') == [u.summary, s.included[0].sharingShortUrl]
  {
    var order := s.included[0];
    var name, msg, short := order.restaurantName, s.message, order.sharingShortUrl;
    var line := FailedHead + name + FailedMid + msg + FailedTail;
    assert '\n' !in Mention && '\n' !in " :rotating_light: The order from *";
    assert '\n' !in FailedHead && '\n' !in FailedMid && '\n' !in FailedTail;
    assert '\n' !in line;
    Strings.SplitJoin([line, short], '\n');
    assert Strings.Join([line, short], '\n') == Format(s).value.blocks[0].text;
  }

  /** No ETA (and no failure): the food is here, a one-line notice naming the restaurant. */
  lemma FormatArrived(s: OrderStatus)
    requires Format(s).Ok? && s.uiStatus != "FAILED" && s.etaMessage.None?
    ensures var order := s.included[0]; var u := Format(s).value; var text := u.blocks[0].text;
      && Contains(text, order.restaurantName)
      && Contains(text, ArrivedTail)
      && ('\n' !in order.restaurantName ==> u.summary == text)
  {
    var name := s.included[0].restaurantName;
    var text := Format(s).value.blocks[0].text;
    assert text == "*" + name + ArrivedTail;
    ContainsMiddle("*", name, ArrivedTail);
    ContainsMiddle("*" + name, ArrivedTail, "");
    assert text == "*" + name + ArrivedTail + "";
    if '\n' !in name {
      assert '\n' !in "* is here, " && '\n' !in "@hungry people " && '\n' !in ":bowl_with_spoon: !";
      assert '\n' !in ArrivedTail;
      assert '\n' !in text;
      Strings.SplitJoin([text], '\n');
    }
  }

  /** With an ETA the text has three lines: restaurant and message, the ETA,
      and the short URL; the summary is the first of them. */
  lemma FormatWithEta(s: OrderStatus)
    requires Format(s).Ok? && s.uiStatus != "FAILED" && s.etaMessage.Some?
    requires '\n' !in s.included[0].restaurantName && '\n' !in s.message
    requires '\n' !in s.etaMessage.value && '\n' !in s.included[0].sharingShortUrl
    ensures var order := s.included[0]; var u := Format(s).value;
      && Strings.Split(u.blocks[0].text, '\n')
           == ["*" + order.restaurantName + EtaMid + s.message, EtaLabel + s.etaMessage.value, order.sharingShortUrl]
      && u.summary == "*" + order.restaurantName + EtaMid + s.message
  {
    var order := s.included[0];
    var l0, l1, l2 := "*" + order.restaurantName + EtaMid + s.message, EtaLabel + s.etaMessage.value, order.sharingShortUrl;
    assert '\n' !in EtaMid && '\n' !in EtaLabel;
    assert '\n' !in l0 && '\n' !in l1;
    var lines := [l0, l1, l2];
    Strings.SplitJoin(lines, '\n');
    assert Strings.Join(lines[2..], '\n') == l2;
    assert Strings.Join(lines[1..], '\n') == l1 + "\n" + l2;
    assert Strings.Join(lines, '\n') == l0 + "\n" + (l1 + "\n" + l2);
    assert Format(s).value.blocks[0].text == l0 + "\n" + (l1 + "\n" + l2);
  }

  /** The preview is asked for at 192 by 108: a template `a{w}b{h}c` gives `a192b108c`. */
  lemma FormatPreviewSize(s: OrderStatus, a: string, b: string, c: string)
    requires IsOrder(s) && s.included[0].imageUrl == a + "{w}" + b + "{h}" + c
    requires !Strings.HasBrace(a) && !Strings.HasBrace(b) && !Strings.HasBrace(c)
    ensures Format(s).Ok? && Format(s).value.blocks[0].imageUrl == a + "192" + b + "108" + c
  {
    Strings.FormatSizeTemplate(a, b, c, PreviewWidth, PreviewHeight);
  }

  // ---------------------------------------------------------------------------
  // The tracking URL of a sharing link

  /** The page the sharing link redirects to: its HTTP status, and the path
      and query of its final URL. */
  datatype FrontendPage = FrontendPage(status: int, path: string, query: map<string, string>)

  /** Why building the tracking URL raised: the page did not load, its path
      does not match, or there is no sharing token. */
  datatype UrlError = PageNotOk | NoOrderInPath | NoSharingToken

  /** The longest run of digits at the end of `s`. */
  function DigitSuffix(s: string): (d: string)
    ensures |d| <= |s| && d == s[|s| - |d|..]
    ensures forall i :: 0 <= i < |d| ==> Strings.IsDigit(d[i])
    ensures |d| < |s| ==> !Strings.IsDigit(s[|s| - |d| - 1])
    decreases |s|
  {
    if s == [] || !Strings.IsDigit(s[|s| - 1]) then []
    else DigitSuffix(s[..|s| - 1]) + [s[|s| - 1]]
  }

  predicate EndsWith(s: string, suffix: string) {
    |suffix| <= |s| && s[|s| - |suffix|..] == suffix
  }

  /** The path without its final line break, if it has one: a regular
      expression's `$` also matches just before such a break. */
  function StripBreak(path: string): (body: string)
    ensures body == path || (|path| >= 1 && path[|path| - 1] == '\n' && body == path[..|path| - 1])
  {
    if |path| >= 1 && path[|path| - 1] == '\n' then path[..|path| - 1] else path
  }

  /** `path` (up to a final line break) is a line-break-free prefix, then
      `/orders/`, the digits `id` and `/status`. */
  predicate OrderPath(path: string, prefix: string, id: string) {
    '\n' !in prefix && Strings.AllDigits(id) && StripBreak(path) == prefix + "/orders/" + id + "/status"
  }

  /** The order id the frontend path carries, as `from_sharing_url` extracts it
      with a regular expression anchored at the start (`.` does not match a
      line break). */
  function OrderId(path: string): (id: Option<string>)
    ensures id.Some? ==> exists prefix :: OrderPath(path, prefix, id.value)
  {
    var body := StripBreak(path);
    if '\n' in body || !EndsWith(body, "/status") then None
    else
      var rest := body[..|body| - 7];
      var d := DigitSuffix(rest);
      var prefix := rest[..|rest| - |d|];
      if |d| == 0 || !EndsWith(prefix, "/orders/") then None
      else
        var p := prefix[..|prefix| - 8];
        assert prefix == p + "/orders/";
        assert rest == prefix + d;
        assert body == rest + "/status";
        assert '\n' !in p by {
          assert forall i :: 0 <= i < |p| ==> p[i] == body[i];
        }
        assert OrderPath(path, p, d);
        Some(d)
  }

  /** The digit run of `x + d` is `d` when `x` does not end in a digit. */
  lemma {:induction false} DigitSuffixAfter(x: string, d: string)
    requires Strings.AllDigits(d) || d == []
    requires x == [] || !Strings.IsDigit(x[|x| - 1])
    ensures DigitSuffix(x + d) == d
    decreases |d|
  {
    if d != [] {
      var init := d[..|d| - 1];
      assert (x + d)[..|x + d| - 1] == x + init;
      DigitSuffixAfter(x, init);
    } else {
      assert x + d == x;
    }
  }

  /** Every frontend path `…/orders/<digits>/status` yields its digits: with
      the ensures of `OrderId`, the path has an order id exactly when it has
      this shape. */
  lemma OrderIdComplete(path: string, prefix: string, id: string)
    requires OrderPath(path, prefix, id)
    ensures OrderId(path) == Some(id)
  {
    var x := prefix + "/orders/";
    var body := StripBreak(path);
    assert body == x + id + "/status";
    assert '\n' !in id by {
      assert forall i :: 0 <= i < |id| ==> Strings.IsDigit(id[i]);
    }
    assert '\n' !in x;
    assert '\n' !in body;
    assert EndsWith(body, "/status");
    assert body[..|body| - 7] == x + id;
    assert x[|x| - 1] == '/';
    DigitSuffixAfter(x, id);
    assert (x + id)[..|x + id| - |id|] == x;
    assert EndsWith(x, "/orders/");
  }

  /** The tracking URL `from_sharing_url` builds from the frontend page. */
  function TrackingUrl(page: FrontendPage): (r: Result<string, UrlError>)
    ensures r.Ok? <==> page.status == 200 && OrderId(page.path).Some? && "sharing_token" in page.query
    ensures r.Ok? ==> r.value == ApiRoot + "/consumer_order_statuses/" + OrderId(page.path).value
                                  + "?sharing_token=" + page.query["sharing_token"]
    ensures r.Err? ==> r.error == if page.status != 200 then PageNotOk
                                  else if OrderId(page.path).None? then NoOrderInPath
                                  else NoSharingToken
  {
    if page.status != 200 then Err(PageNotOk)
    else match OrderId(page.path)
      case None => Err(NoOrderInPath)
      case Some(id) =>
        if "sharing_token" !in page.query then Err(NoSharingToken)
        else Ok(ApiRoot + "/consumer_order_statuses/" + id + "?sharing_token=" + page.query["sharing_token"])
  }

  /** A loaded frontend page `…/orders/<id>/status?sharing_token=<token>` gives
      the status URL of order `<id>` with that token. */
  lemma TrackingUrlOfPage(prefix: string, id: string, query: map<string, string>)
    requires '\n' !in prefix && Strings.AllDigits(id) && "sharing_token" in query
    ensures TrackingUrl(FrontendPage(200, prefix + "/orders/" + id + "/status", query))
      == Ok(ApiRoot + "/consumer_order_statuses/" + id + "?sharing_token=" + query["sharing_token"])
  {
    OrderIdComplete(prefix + "/orders/" + id + "/status", prefix, id);
  }

  // ---------------------------------------------------------------------------
  // Polling

  /** One `slack.post_message(channels, text, blocks)` call, as recorded in the delivery log. */
  datatype Post = Post(channels: seq<Slack.Channel>, summary: string, blocks: seq<Slack.Block>)

  /** What a run of the poll loop does: the posts it makes, the backlog left,
      the last state it fetched, and whether it saw a terminal status. */
  datatype Trace = Trace(posts: seq<Post>, rest: seq<OrderStatus>, state: Option<OrderStatus>, completed: bool)

  function PostOf(u: Update, channels: seq<Slack.Channel>): Post {
    Post(channels, u.summary, u.blocks)
  }

  /** How a status is turned into a Slack update; `run` uses `Format`. */
  type Formatter = OrderStatus -> Result<Update, FormatError>

  /** The poll loop of `run` over the fetched statuses `rs`: post when the
      message differs from the last one posted, stop after a terminal status.
      The loop also ends, without completing, when no status is left to fetch
      or formatting raises. The formatter `fmt` is `Format` in `run`; as a
      parameter it lets the lemmas below hold whatever it is. */
  function Poll(fmt: Formatter, rs: seq<OrderStatus>, last: Option<string>, channels: seq<Slack.Channel>, state: Option<OrderStatus>): (t: Trace)
    ensures |t.rest| <= |rs|
    decreases |rs|
  {
    if rs == [] then Trace([], [], state, false)
    else
      var s := rs[0];
      var changed := Some(s.message) != last;
      var f := fmt(s);
      if changed && f.Err? then Trace([], rs[1..], Some(s), false)
      else
        var posts := if changed then [PostOf(f.value, channels)] else [];
        if Terminal(s.uiStatus) then Trace(posts, rs[1..], Some(s), true)
        else
          var t := Poll(fmt, rs[1..], if changed then Some(s.message) else last, channels, Some(s));
          Trace(posts + t.posts, t.rest, t.state, t.completed)
  }

  /** The message `run` compares the `i`-th fetched status with: `last` for
      the first, otherwise the previous status's message (which the loop has
      either just posted or found unchanged). */
  function Prev(rs: seq<OrderStatus>, last: Option<string>, i: nat): Option<string>
    requires i < |rs|
  {
    if i == 0 then last else Some(rs[i - 1].message)
  }

  /** Polling the `i`-th status raises: its message changed, so it is
      formatted, and formatting fails. */
  predicate Raises(fmt: Formatter, rs: seq<OrderStatus>, last: Option<string>, i: nat)
    requires i < |rs|
  {
    Some(rs[i].message) != Prev(rs, last, i) && fmt(rs[i]).Err?
  }

  /** No status of `rs` raises when polled after the message `previous`. */
  predicate NoRaise(fmt: Formatter, rs: seq<OrderStatus>, previous: Option<string>)
    decreases |rs|
  {
    rs == [] || ((Some(rs[0].message) != previous ==> fmt(rs[0]).Ok?) && NoRaise(fmt, rs[1..], Some(rs[0].message)))
  }

  /** The reference notification rule: a status is posted exactly when its
      message differs from the message of the status polled just before it
      (the first one always is). */
  function ChangePosts(fmt: Formatter, rs: seq<OrderStatus>, previous: Option<string>, channels: seq<Slack.Channel>): seq<Post>
    requires NoRaise(fmt, rs, previous)
    decreases |rs|
  {
    if rs == [] then []
    else
      (if Some(rs[0].message) != previous then [PostOf(fmt(rs[0]).value, channels)] else [])
      + ChangePosts(fmt, rs[1..], Some(rs[0].message), channels)
  }

  /** The reference rule on a status followed by more statuses. */
  lemma ChangePostsCons(fmt: Formatter, s: OrderStatus, tail: seq<OrderStatus>, previous: Option<string>, channels: seq<Slack.Channel>)
    requires Some(s.message) != previous ==> fmt(s).Ok?
    requires NoRaise(fmt, tail, Some(s.message))
    ensures NoRaise(fmt, [s] + tail, previous)
    ensures ChangePosts(fmt, [s] + tail, previous, channels)
      == (if Some(s.message) != previous then [PostOf(fmt(s).value, channels)] else []) + ChangePosts(fmt, tail, Some(s.message), channels)
  {
    assert ([s] + tail)[0] == s && ([s] + tail)[1..] == tail;
  }

  /** How many statuses a poll loop fetched. */
  function Polled(rs: seq<OrderStatus>, t: Trace): nat
    requires |t.rest| <= |rs|
  {
    |rs| - |t.rest|
  }

  /** How many of the fetched statuses went through the post step: all of
      them, except a last one whose formatting raised. */
  function HandledCount(fmt: Formatter, rs: seq<OrderStatus>, last: Option<string>, t: Trace): nat
    requires |t.rest| <= |rs|
  {
    var n := Polled(rs, t);
    if n >= 1 && Raises(fmt, rs, last, n - 1) then n - 1 else n
  }

  /** The poll loop consumes a prefix of the backlog, one status per poll, and
      `current_state` is the last status fetched. */
  lemma {:induction false} PollConsumes(fmt: Formatter, rs: seq<OrderStatus>, last: Option<string>, channels: seq<Slack.Channel>, state: Option<OrderStatus>)
    ensures var t := Poll(fmt, rs, last, channels, state); var n := Polled(rs, t);
      && t.rest == rs[n..]
      && (rs != [] ==> n >= 1 && t.state == Some(rs[n - 1]))
      && (rs == [] ==> t.state == state)
    decreases |rs|
  {
    if rs != [] {
      var s := rs[0];
      var changed := Some(s.message) != last;
      var t := Poll(fmt, rs, last, channels, state);
      if (changed && fmt(s).Err?) || Terminal(s.uiStatus) {
        assert t.rest == rs[1..] && t.state == Some(s);
      } else {
        var next := if changed then Some(s.message) else last;
        var t' := Poll(fmt, rs[1..], next, channels, Some(s));
        assert t.rest == t'.rest && t.state == t'.state;
        PollConsumes(fmt, rs[1..], next, channels, Some(s));
        var n' := Polled(rs[1..], t');
        assert rs[1..][n'..] == rs[n' + 1..];
        if n' == 0 {
          assert t'.state == Some(s);
        } else {
          assert rs[1..][n' - 1] == rs[n'];
        }
      }
    }
  }

  /** One turn of the loop that neither raises nor completes: the loop goes
      on with the rest of the backlog, now comparing with this message. */
  lemma PollStep(fmt: Formatter, rs: seq<OrderStatus>, last: Option<string>, channels: seq<Slack.Channel>, state: Option<OrderStatus>)
    requires rs != [] && !Raises(fmt, rs, last, 0) && !Terminal(rs[0].uiStatus)
    ensures var t := Poll(fmt, rs, last, channels, state); var t' := Poll(fmt, rs[1..], Some(rs[0].message), channels, Some(rs[0]));
      && t.posts == (if Some(rs[0].message) != last then [PostOf(fmt(rs[0]).value, channels)] else []) + t'.posts
      && t.rest == t'.rest && t.state == t'.state && t.completed == t'.completed
  {
  }

  /** A turn that raises or completes is the last one. */
  lemma PollLast(fmt: Formatter, rs: seq<OrderStatus>, last: Option<string>, channels: seq<Slack.Channel>, state: Option<OrderStatus>)
    requires rs != [] && (Raises(fmt, rs, last, 0) || Terminal(rs[0].uiStatus))
    ensures var t := Poll(fmt, rs, last, channels, state);
      && t.rest == rs[1..] && t.state == Some(rs[0])
      && t.completed == !Raises(fmt, rs, last, 0)
      && t.posts == (if Raises(fmt, rs, last, 0) || Some(rs[0].message) == last then [] else [PostOf(fmt(rs[0]).value, channels)])
  {
  }

  /** Whether a status raises depends only on it and the one before it, so
      it reads the same in the backlog and in the backlog without its head. */
  lemma RaisesTail(fmt: Formatter, rs: seq<OrderStatus>, last: Option<string>, i: nat)
    requires 1 <= i < |rs|
    ensures Raises(fmt, rs, last, i) == Raises(fmt, rs[1..], Some(rs[0].message), i - 1)
  {
    assert rs[1..][i - 1] == rs[i];
    if i >= 2 {
      assert rs[1..][i - 2] == rs[i - 1];
    }
  }

  /** Posts go out exactly on changes of message: the posts of the poll loop
      are those of the reference rule over the statuses it handled, which are
      all the statuses it fetched except a last one whose formatting raised. */
  lemma {:induction false} PollPostsOnChange(fmt: Formatter, rs: seq<OrderStatus>, last: Option<string>, channels: seq<Slack.Channel>, state: Option<OrderStatus>)
    ensures var t := Poll(fmt, rs, last, channels, state); var m := HandledCount(fmt, rs, last, t);
      NoRaise(fmt, rs[..m], last) && t.posts == ChangePosts(fmt, rs[..m], last, channels)
    decreases |rs|
  {
    if rs != [] {
      var s := rs[0];
      var t := Poll(fmt, rs, last, channels, state);
      var m := HandledCount(fmt, rs, last, t);
      if Raises(fmt, rs, last, 0) || Terminal(s.uiStatus) {
        PollLast(fmt, rs, last, channels, state);
        if Raises(fmt, rs, last, 0) {
          assert rs[..m] == [];
        } else {
          assert rs[..m] == [s] && rs[..m][1..] == [];
        }
      } else {
        PollStep(fmt, rs, last, channels, state);
        var next := Some(s.message);
        PollPostsOnChange(fmt, rs[1..], next, channels, Some(s));
        var t' := Poll(fmt, rs[1..], next, channels, Some(s));
        var n' := Polled(rs[1..], t');
        var m' := HandledCount(fmt, rs[1..], next, t');
        if n' >= 1 {
          RaisesTail(fmt, rs, last, n');
        }
        assert m == m' + 1;
        assert rs[..m] == [s] + rs[1..][..m'];
        ChangePostsCons(fmt, s, rs[1..][..m'], last, channels);
      }
    }
  }

  /** The loop goes past a status only when it is not terminal and did not
      raise; it completes exactly when the last status fetched is terminal
      and did not raise; otherwise it has used up every status or stopped on
      one whose formatting raised. */
  lemma {:induction false} PollStopsAtTerminal(fmt: Formatter, rs: seq<OrderStatus>, last: Option<string>, channels: seq<Slack.Channel>, state: Option<OrderStatus>)
    ensures var t := Poll(fmt, rs, last, channels, state); var n := Polled(rs, t);
      && (forall i :: 0 <= i < n - 1 ==> !Terminal(rs[i].uiStatus) && !Raises(fmt, rs, last, i))
      && (t.completed <==> n >= 1 && Terminal(rs[n - 1].uiStatus) && !Raises(fmt, rs, last, n - 1))
      && (!t.completed ==> n == |rs| || (n >= 1 && Raises(fmt, rs, last, n - 1)))
    decreases |rs|
  {
    if rs != [] {
      if Raises(fmt, rs, last, 0) || Terminal(rs[0].uiStatus) {
        PollLast(fmt, rs, last, channels, state);
      } else {
        PollStep(fmt, rs, last, channels, state);
        var next := Some(rs[0].message);
        PollStopsAtTerminal(fmt, rs[1..], next, channels, Some(rs[0]));
        var t' := Poll(fmt, rs[1..], next, channels, Some(rs[0]));
        var n' := Polled(rs[1..], t');
        forall i | 1 <= i < n' + 1 ensures rs[i] == rs[1..][i - 1] && Raises(fmt, rs, last, i) == Raises(fmt, rs[1..], next, i - 1) {
          RaisesTail(fmt, rs, last, i);
        }
      }
    }
  }

  /** The tracking completes exactly when some status of the backlog is
      terminal and no status up to it raises on formatting. */
  lemma PollCompletes(fmt: Formatter, rs: seq<OrderStatus>, last: Option<string>, channels: seq<Slack.Channel>, state: Option<OrderStatus>)
    ensures Poll(fmt, rs, last, channels, state).completed
      <==> exists i :: 0 <= i < |rs| && Terminal(rs[i].uiStatus) && forall j :: 0 <= j <= i ==> !Raises(fmt, rs, last, j)
  {
    var t := Poll(fmt, rs, last, channels, state);
    PollStopsAtTerminal(fmt, rs, last, channels, state);
    var n := Polled(rs, t);
    if t.completed {
      assert forall j :: 0 <= j <= n - 1 ==> !Raises(fmt, rs, last, j);
      assert Terminal(rs[n - 1].uiStatus);
    } else {
      forall i | 0 <= i < |rs| && Terminal(rs[i].uiStatus)
        ensures exists j :: 0 <= j <= i && Raises(fmt, rs, last, j)
      {
        // a terminal status before the last fetched one is impossible
        var j := if i == n - 1 then i else n - 1;
        assert 0 <= j <= i && Raises(fmt, rs, last, j);
      }
    }
  }

  /** A first status that fails to format ends the run by raising: it is
      recorded as the current state, nothing is posted, the tracking is not
      completed, and the later statuses are never fetched. */
  lemma PollRaises(s1: OrderStatus, s2: OrderStatus, channels: seq<Slack.Channel>)
    requires Format(s1).Err?
    ensures Poll(Format, [s1, s2], None, channels, None) == Trace([], [s2], Some(s1), false)
  {
    assert [s1, s2][1..] == [s2];
  }

  /** The replaying tracker's three statuses (ongoing, delivering, complete),
      each with a new message: three posts, one per status, and the tracking
      completes with nothing left to fetch. */
  lemma PollReplay(s1: OrderStatus, s2: OrderStatus, s3: OrderStatus, channels: seq<Slack.Channel>)
    requires Format(s1).Ok? && Format(s2).Ok? && Format(s3).Ok?
    requires !Terminal(s1.uiStatus) && !Terminal(s2.uiStatus) && s3.uiStatus == "COMPLETED"
    requires s1.message != s2.message && s2.message != s3.message
    ensures Poll(Format, [s1, s2, s3], None, channels, None)
      == Trace([PostOf(Format(s1).value, channels), PostOf(Format(s2).value, channels), PostOf(Format(s3).value, channels)],
               [], Some(s3), true)
  {
    var rs := [s1, s2, s3];
    assert rs[1..] == [s2, s3] && rs[1..][1..] == [s3] && rs[1..][1..][1..] == [];
    var t3 := Poll(Format, [s3], Some(s2.message), channels, Some(s2));
    assert t3 == Trace([PostOf(Format(s3).value, channels)], [], Some(s3), true);
    var t2 := Poll(Format, [s2, s3], Some(s1.message), channels, Some(s1));
    assert t2.posts == [PostOf(Format(s2).value, channels)] + t3.posts;
  }

  // ---------------------------------------------------------------------------
  // The tracker

  /** Some channel of `channels` equals `chan`, by (team, channel) identity. */
  predicate Known(channels: seq<Slack.Channel>, chan: Slack.Channel) {
    exists j :: 0 <= j < |channels| && chan.Equals(channels[j])
  }

  /** No two channels of the list are equal. */
  predicate Distinct(channels: seq<Slack.Channel>) {
    forall i, j :: 0 <= i < j < |channels| ==> !channels[i].Equals(channels[j])
  }

  /** The statuses the order behind `trackingUrl` will report, one per fetch,
      from a map keyed by tracking URL. All replaying trackers share the
      `[MOCK]` entry; a URL with no entry fails on its first fetch. */
  function Statuses(responses: map<string, seq<OrderStatus>>, trackingUrl: string): (rs: seq<OrderStatus>)
    ensures trackingUrl in responses ==> rs == responses[trackingUrl]
    ensures trackingUrl !in responses ==> rs == []
  {
    if trackingUrl in responses then responses[trackingUrl] else []
  }

  /** What `add_channel` posts to a channel it has just added. */
  function CatchUp(state: Option<OrderStatus>, chan: Slack.Channel): (posts: seq<Post>)
    ensures |posts| <= 1
    ensures posts != [] <==> state.Some? && Format(state.value).Ok?
    ensures posts != [] ==> posts[0].channels == [chan] && posts[0] == PostOf(Format(state.value).value, [chan])
  {
    if state.Some? && Format(state.value).Ok? then [PostOf(Format(state.value).value, [chan])] else []
  }

  /** State kept for one order. The statuses are fetched from `backlog`, one
      per poll; what is posted to Slack is appended to `outbox`. */
  class Tracker {
    var channels: seq<Slack.Channel>
    var completed: bool
    const trackingUrl: string
    var currentState: Option<OrderStatus>
    var backlog: seq<OrderStatus>
    var outbox: seq<Post>

    constructor (trackingUrl: string, channels: seq<Slack.Channel>, responses: seq<OrderStatus>)
      ensures this.trackingUrl == trackingUrl && Initial(channels, responses)
    {
      this.trackingUrl := trackingUrl;
      this.channels := channels;
      completed := false;
      currentState := None;
      backlog := responses;
      outbox := [];
    }

    /** `from_sharing_url`: a tracker for the order the frontend page shows,
        watched by `channels`; raises when the tracking URL cannot be built. */
    static method FromSharingUrl(page: FrontendPage, channels: seq<Slack.Channel>, responses: map<string, seq<OrderStatus>>)
      returns (r: Result<Tracker, UrlError>)
      ensures r.Err? ==> TrackingUrl(page).Err? && r.error == TrackingUrl(page).error
      ensures r.Ok? ==> TrackingUrl(page).Ok? && fresh(r.value) && r.value.trackingUrl == TrackingUrl(page).value
      ensures r.Ok? ==> r.value.Initial(channels, Statuses(responses, r.value.trackingUrl))
    {
      match TrackingUrl(page)
      case Err(e) => r := Err(e);
      case Ok(url) =>
        var t := new Tracker(url, channels, Statuses(responses, url));
        r := Ok(t);
    }

    /** `from_sharing_url` of the replaying tracker: no page is loaded. */
    static method MockFromSharingUrl(channels: seq<Slack.Channel>, responses: map<string, seq<OrderStatus>>) returns (t: Tracker)
      ensures fresh(t) && t.trackingUrl == MockTrackingUrl && t.Initial(channels, Statuses(responses, MockTrackingUrl))
    {
      t := new Tracker(MockTrackingUrl, channels, Statuses(responses, MockTrackingUrl));
    }

    /** The state of a tracker nothing has happened to yet. */
    predicate Initial(channels: seq<Slack.Channel>, responses: seq<OrderStatus>)
      reads this
    {
      && this.channels == channels && !completed && currentState == None
      && backlog == responses && outbox == []
    }

    /** `get_order_status` of the replaying tracker: the next status of the
        backlog, or nothing (`IndexError`) once it is exhausted. */
    method GetOrderStatus() returns (r: Option<OrderStatus>)
      modifies this`backlog
      ensures old(backlog) == [] ==> r == None && backlog == []
      ensures old(backlog) != [] ==> r == Some(old(backlog)[0]) && backlog == old(backlog)[1..]
    {
      if backlog == [] {
        r := None;
      } else {
        r := Some(backlog[0]);
        backlog := backlog[1..];
      }
    }

    /** `add_channel`: a channel equal to a known one changes nothing; a new one
        is appended and, once a status is known, sent that status alone. */
    method AddChannel(chan: Slack.Channel)
      modifies this`channels, this`outbox
      ensures Known(old(channels), chan) ==> channels == old(channels) && outbox == old(outbox)
      ensures !Known(old(channels), chan) ==>
        channels == old(channels) + [chan] && outbox == old(outbox) + CatchUp(currentState, chan)
      ensures Distinct(old(channels)) ==> Distinct(channels)
    {
      var i := 0;
      while i < |channels|
        invariant 0 <= i <= |channels|
        invariant forall j :: 0 <= j < i ==> !chan.Equals(channels[j])
      {
        if chan.Equals(channels[i]) {
          return;
        }
        i := i + 1;
      }
      channels := channels + [chan];
      if currentState.Some? {
        var f := Format(currentState.value);
        if f.Ok? {
          outbox := outbox + [PostOf(f.value, [chan])];
        }
      }
    }

    /** One iteration of the loop of `run`: fetch, record, post on a change
        of message, and complete on a terminal status. `raised` says the
        iteration raised (no status left, or formatting failed), which ends
        the run. */
    method PollOnce(lastMsg: Option<string>) returns (raised: bool, next: Option<string>, ghost posted: seq<Post>)
      requires !completed
      modifies this`currentState, this`completed, this`backlog, this`outbox
      ensures outbox == old(outbox) + posted
      ensures raised ==> Poll(Format, old(backlog), lastMsg, channels, old(currentState))
                         == Trace(posted, backlog, currentState, completed)
      ensures !raised ==> |backlog| < |old(backlog)|
      ensures !raised ==> Poll(Format, old(backlog), lastMsg, channels, old(currentState))
                          == After(posted, Remaining(completed, backlog, next, channels, currentState))
    {
      posted := [];
      next := lastMsg;
      var r := GetOrderStatus();
      if r.None? {
        return true, next, posted;
      }
      var s := r.value;
      currentState := Some(s);
      var msg := s.message;
      if Some(msg) != lastMsg {
        var f := Format(s);
        if f.Err? {
          return true, next, posted;
        }
        outbox := outbox + [PostOf(f.value, channels)];
        posted := [PostOf(f.value, channels)];
        next := Some(msg);
      }
      if Terminal(s.uiStatus) {
        completed := true;
      }
      raised := false;
    }

    /** `run`: poll until a terminal status, posting each change of message to
        all channels. A tracker already completed polls nothing. */
    method Run() returns (ghost t: Trace)
      modifies this`currentState, this`completed, this`backlog, this`outbox
      ensures t == Remaining(old(completed), old(backlog), None, channels, old(currentState))
      ensures outbox == old(outbox) + t.posts && backlog == t.rest
      ensures currentState == t.state && completed == t.completed
    {
      t := Remaining(completed, backlog, None, channels, currentState);
      var lastMsg: Option<string> := None;
      ghost var posted: seq<Post> := [];
      while !completed
        invariant outbox == old(outbox) + posted
        invariant t == After(posted, Remaining(completed, backlog, lastMsg, channels, currentState))
        decreases |backlog|
      {
        var raised, next;
        ghost var step;
        raised, next, step := PollOnce(lastMsg);
        Seqs.AppendAssoc(old(outbox), posted, step);
        if raised {
          AfterAfter(posted, step, Trace([], backlog, currentState, completed));
          posted := posted + step;
          AfterNothing(posted, t, backlog, currentState, completed);
          return;
        }
        AfterAfter(posted, step, Remaining(completed, backlog, next, channels, currentState));
        posted := posted + step;
        lastMsg := next;
      }
      AfterNothing(posted, t, backlog, currentState, true);
    }
  }

  lemma AfterAfter(p: seq<Post>, q: seq<Post>, rest: Trace)
    ensures After(p, After(q, rest)) == After(p + q, rest)
  {
    Seqs.AppendAssoc(p, q, rest.posts);
  }

  lemma AfterNothing(posted: seq<Post>, t: Trace, rest: seq<OrderStatus>, state: Option<OrderStatus>, completed: bool)
    requires t == After(posted, Trace([], rest, state, completed))
    ensures t.posts == posted && t.rest == rest && t.state == state && t.completed == completed
  {
    assert posted + [] == posted;
  }

  /** What is left of the run: nothing once completed, else the poll loop. */
  function Remaining(completed: bool, backlog: seq<OrderStatus>, last: Option<string>,
                     channels: seq<Slack.Channel>, state: Option<OrderStatus>): Trace
  {
    if completed then Trace([], backlog, state, true) else Poll(Format, backlog, last, channels, state)
  }

  /** A trace that starts with `posted` and continues as `rest` does. */
  function After(posted: seq<Post>, rest: Trace): Trace {
    Trace(posted + rest.posts, rest.rest, rest.state, rest.completed)
  }
}
